/** The agent's tools: adding a product by URL, alerts, price history, price
    comparison across stores, and the result-size caps. */
module Tools {
  import opened Common
  import opened JsonValue
  import M = Models
  import S = Security
  import E = Engine
  import St = Strategies
  import Sync
  import Embeddings
  import RagIndex

  /** What a tool raises: RecordNotFoundError, or ToolExecutionError with
      the tool's name (for a rejected URL, the validation error it wraps). */
  datatype ToolError =
    | RecordNotFound(entity: string, id: int)
    | UrlRejected(tool: string, error: S.UrlError)
    | ExecutionFailed(tool: string, message: string)

  // ---------------------------------------------------------------
  // Result caps
  // ---------------------------------------------------------------

  /** search_products: at most 50 results are asked for. */
  function SearchLimit(limit: int): (r: int)
    ensures r <= 50
    ensures limit <= 50 ==> r == limit
    ensures limit > 50 ==> r == 50
  {
    Min(limit, 50)
  }

  /** list_products: at most 100 products are listed. */
  function ListLimit(limit: int): (r: int)
    ensures r <= 100
    ensures limit <= 100 ==> r == limit
    ensures limit > 100 ==> r == 100
  {
    Min(limit, 100)
  }

  // ---------------------------------------------------------------
  // set_alert
  // ---------------------------------------------------------------

  datatype AlertResult = AlertResult(success: bool, alertId: Option<int>, message: string)

  const InvalidAlertType := "Invalid alert type. Valid types: target_price, percent_drop, any_change, back_in_stock"
  const TargetMustBePositive := "target_value must be positive"

  /** AlertType(value): the type whose value is the text, if any. */
  function ParseAlertType(s: string): (r: Option<M.AlertType>)
    ensures r.Some? ==> r.value.Value() == s
    ensures r.None? ==> forall t: M.AlertType :: t.Value() != s
  {
    if s == "target_price" then Some(M.TargetPrice)
    else if s == "percent_drop" then Some(M.PercentDrop)
    else if s == "any_change" then Some(M.AnyChange)
    else if s == "back_in_stock" then Some(M.BackInStock)
    else None
  }

  /** Target-price and percent-drop alerts need a target value. */
  predicate NeedsTarget(t: M.AlertType)
  {
    t == M.TargetPrice || t == M.PercentDrop
  }

  /** The validation part of set_alert: the alert type to create, or the
      refusal text. */
  function CheckAlert(alertType: string, target: Option<real>): (r: Result<M.AlertType, string>)
    ensures r.Ok? <==> && ParseAlertType(alertType).Some?
                       && (NeedsTarget(ParseAlertType(alertType).value) ==> target.Some? && target.value > 0.0)
    ensures r.Ok? ==> r.value.Value() == alertType
    ensures ParseAlertType(alertType).None? ==> r == Err(InvalidAlertType)
    ensures ParseAlertType(alertType).Some? && NeedsTarget(ParseAlertType(alertType).value) && target.None? ==>
              r == Err("target_value is required for " + alertType + " alerts")
    ensures (ParseAlertType(alertType).Some? && NeedsTarget(ParseAlertType(alertType).value)
             && target.Some? && target.value <= 0.0) ==> r == Err(TargetMustBePositive)
  {
    var t := ParseAlertType(alertType);
    if t.None? then Err(InvalidAlertType)
    else if NeedsTarget(t.value) && target.None? then Err("target_value is required for " + alertType + " alerts")
    else if NeedsTarget(t.value) && target.value <= 0.0 then Err(TargetMustBePositive)
    else Ok(t.value)
  }

  /** Any-change and back-in-stock alerts are accepted with or without a
      target, of any sign. */
  lemma TargetOptionalForChangeAndStock(alertType: string, target: Option<real>)
    requires alertType == "any_change" || alertType == "back_in_stock"
    ensures CheckAlert(alertType, target).Ok?
  {
    assert ParseAlertType(alertType).Some?;
  }

  /** The confirmation text; `format(x, d)` is x with d decimals. */
  function Confirmation(t: M.AlertType, target: Option<real>, format: (real, nat) -> string): string
    requires NeedsTarget(t) ==> target.Some?
  {
    match t
    case TargetPrice => "Alert set! You'll be notified when price drops to $" + format(target.value, 2) + " or below."
    case PercentDrop => "Alert set! You'll be notified when price drops by " + format(target.value, 0) + "% or more."
    case AnyChange => "Alert set! You'll be notified of any price change."
    case BackInStock => "Alert set! You'll be notified when this item is back in stock."
  }

  /** set_alert: an unknown product raises; a refused type or target gives
      success False and creates nothing; otherwise a new active alert with
      the default change threshold of 1.0 is created and confirmed with the
      text for its type. */
  method SetAlert(product: M.Product?, productId: int, alertType: string, target: Option<real>, newId: int,
                  format: (real, nat) -> string)
    returns (r: Result<AlertResult, ToolError>, alert: M.Alert?)
    ensures product == null ==> r == Err(RecordNotFound("Product", productId)) && alert == null
    ensures product != null && CheckAlert(alertType, target).Err? ==>
              r == Ok(AlertResult(false, None, CheckAlert(alertType, target).error)) && alert == null
    ensures product != null && CheckAlert(alertType, target).Ok? ==>
              && alert != null && fresh(alert)
              && alert.id == newId && alert.productId == productId
              && alert.alertType.Value() == alertType && alert.targetValue == target
              && alert.isActive && !alert.isTriggered && alert.minChangeThreshold == 1.0
              && r.Ok? && r.value.success && r.value.alertId == Some(newId)
              && r.value.message == Confirmation(CheckAlert(alertType, target).value, target, format)
  {
    if product == null {
      return Err(RecordNotFound("Product", productId)), null;
    }
    var check := CheckAlert(alertType, target);
    if check.Err? {
      return Ok(AlertResult(false, None, check.error)), null;
    }
    alert := new M.Alert(newId, productId, check.value, target, 1.0);
    r := Ok(AlertResult(true, Some(newId), Confirmation(check.value, target, format)));
  }

  // ---------------------------------------------------------------
  // get_price_history
  // ---------------------------------------------------------------

  datatype HistoryRow = HistoryRow(price: real, originalPrice: Option<real>, inStock: bool, date: real)

  datatype PriceHistoryResult = PriceHistoryResult(
    productId: int,
    productName: string,
    history: seq<HistoryRow>,
    minPrice: Option<real>,
    maxPrice: Option<real>,
    currentPrice: Option<real>)

  function Lowest(prices: seq<real>): (r: real)
    requires prices != []
    ensures r in prices && forall p :: p in prices ==> r <= p
  {
    if |prices| == 1 then prices[0]
    else
      var rest := Lowest(prices[1..]);
      assert forall p :: p in prices ==> p == prices[0] || p in prices[1..];
      if prices[0] <= rest then prices[0] else rest
  }

  function Highest(prices: seq<real>): (r: real)
    requires prices != []
    ensures r in prices && forall p :: p in prices ==> p <= r
  {
    if |prices| == 1 then prices[0]
    else
      var rest := Highest(prices[1..]);
      assert forall p :: p in prices ==> p == prices[0] || p in prices[1..];
      if prices[0] >= rest then prices[0] else rest
  }

  function Prices(history: seq<M.PriceHistory>): (r: seq<real>)
    ensures |r| == |history| && forall i :: 0 <= i < |history| ==> r[i] == history[i].price
  {
    seq(|history|, i requires 0 <= i < |history| => history[i].price)
  }

  function Row(h: M.PriceHistory): HistoryRow
  {
    HistoryRow(h.price, h.originalPrice, h.inStock, h.scrapedAt)
  }

  /** get_price_history over the rows the history query returned: one row
      per record in order, and the least and greatest recorded price (None
      for an empty history). */
  function GetPriceHistory(product: M.Product?, productId: int, history: seq<M.PriceHistory>)
    : (r: Result<PriceHistoryResult, ToolError>)
    reads product
    ensures product == null <==> r == Err(RecordNotFound("Product", productId))
    ensures r.Ok? ==>
              && r.value.productId == productId && r.value.productName == product.name
              && r.value.currentPrice == product.currentPrice
              && |r.value.history| == |history|
              && (forall i :: 0 <= i < |history| ==> r.value.history[i] == Row(history[i]))
              && (history == [] <==> r.value.minPrice.None?)
              && (history == [] <==> r.value.maxPrice.None?)
              && (r.value.minPrice.Some? ==>
                    (exists i :: 0 <= i < |history| && history[i].price == r.value.minPrice.value)
                    && forall i :: 0 <= i < |history| ==> r.value.minPrice.value <= history[i].price)
              && (r.value.maxPrice.Some? ==>
                    (exists i :: 0 <= i < |history| && history[i].price == r.value.maxPrice.value)
                    && forall i :: 0 <= i < |history| ==> history[i].price <= r.value.maxPrice.value)
  {
    if product == null then Err(RecordNotFound("Product", productId))
    else
      var rows := seq(|history|, i requires 0 <= i < |history| => Row(history[i]));
      var prices := Prices(history);
      assert forall i :: 0 <= i < |history| ==> prices[i] in prices;
      assert prices != [] ==> var i :| 0 <= i < |prices| && prices[i] == Lowest(prices); history[i].price == Lowest(prices);
      assert prices != [] ==> var i :| 0 <= i < |prices| && prices[i] == Highest(prices); history[i].price == Highest(prices);
      Ok(PriceHistoryResult(productId, product.name, rows,
                            if prices == [] then None else Some(Lowest(prices)),
                            if prices == [] then None else Some(Highest(prices)),
                            product.currentPrice))
  }

  // ---------------------------------------------------------------
  // compare_prices
  // ---------------------------------------------------------------

  datatype PriceRow = PriceRow(store: string, price: real, inStock: bool, url: string)

  datatype CompareResult = CompareResult(productName: string, prices: seq<PriceRow>, lowestPrice: Option<real>,
                                         lowestStore: string)

  /** The listed prices: one row per product with a price, in order. */
  function PriceRows(ps: seq<M.Product>): (r: seq<PriceRow>)
    reads ps
    ensures |r| <= |ps|
  {
    if ps == [] then []
    else
      var n := |ps| - 1;
      PriceRows(ps[..n]) + (if ps[n].currentPrice.Some?
                            then [PriceRow(ps[n].storeDomain, ps[n].currentPrice.value, ps[n].inStock, ps[n].url)]
                            else [])
  }

  /** A product that can be the lowest: priced and in stock. */
  predicate Buyable(p: M.Product)
    reads p
  {
    p.currentPrice.Some? && p.inStock
  }

  /** Product i has the lowest buyable price, and no earlier buyable product
      has the same price. */
  predicate LowestAt(ps: seq<M.Product>, i: int)
    reads ps
  {
    && 0 <= i < |ps| && Buyable(ps[i])
    && (forall j :: 0 <= j < |ps| && Buyable(ps[j]) ==> ps[i].currentPrice.value <= ps[j].currentPrice.value)
    && (forall j :: 0 <= j < i && Buyable(ps[j]) ==> ps[j].currentPrice.value > ps[i].currentPrice.value)
  }

  /** What compare_prices promises about a group with products. */
  ghost predicate Compared(ps: seq<M.Product>, r: CompareResult)
    reads ps
  {
    && ps != [] && r.productName == ps[0].name && r.prices == PriceRows(ps)
    && (r.lowestPrice.None? <==> forall j :: 0 <= j < |ps| ==> !Buyable(ps[j]))
    && (r.lowestPrice.None? ==> r.lowestStore == "")
    && (r.lowestPrice.Some? ==>
          exists i :: LowestAt(ps, i) && r.lowestPrice == ps[i].currentPrice && r.lowestStore == ps[i].storeDomain)
  }

  /** The comparison loop: collect the prices and keep the first strictly
      lowest in-stock price. */
  method CompareLoop(ps: seq<M.Product>) returns (prices: seq<PriceRow>, lowest: Option<real>, lowestStore: string)
    ensures prices == PriceRows(ps)
    ensures lowest.None? <==> forall j :: 0 <= j < |ps| ==> !Buyable(ps[j])
    ensures lowest.None? ==> lowestStore == ""
    ensures lowest.Some? ==> exists i :: LowestAt(ps, i) && lowest == ps[i].currentPrice && lowestStore == ps[i].storeDomain
  {
    prices, lowest, lowestStore := [], None, "";
    ghost var at := -1;
    for k := 0 to |ps|
      invariant prices == PriceRows(ps[..k])
      invariant lowest.None? <==> forall j :: 0 <= j < k ==> !Buyable(ps[j])
      invariant lowest.None? ==> lowestStore == "" && at == -1
      invariant lowest.Some? ==> && 0 <= at < k && LowestAt(ps[..k], at)
                                 && lowest == ps[at].currentPrice && lowestStore == ps[at].storeDomain
    {
      assert ps[..k + 1][..k] == ps[..k];
      var p := ps[k];
      if p.currentPrice.Some? {
        prices := prices + [PriceRow(p.storeDomain, p.currentPrice.value, p.inStock, p.url)];
        if p.inStock && (lowest.None? || p.currentPrice.value < lowest.value) {
          lowest := p.currentPrice;
          lowestStore := p.storeDomain;
          at := k;
        }
      }
      assert lowest.Some? ==> LowestAt(ps[..k + 1], at);
    }
    assert ps[..|ps|] == ps;
  }

  /** The TypeError text that CompareResult(..., message=...) raises. */
  const UnexpectedMessage := "CompareResult.__init__() got an unexpected keyword argument 'message'"

  /** compare_prices as written: the empty-group branch passes a `message`
      the result type does not have, so it fails. */
  method ComparePricesAsWritten(ps: seq<M.Product>) returns (r: Result<CompareResult, ToolError>)
    ensures ps == [] ==> r == Err(ExecutionFailed("compare_prices", UnexpectedMessage))
    ensures ps != [] ==> r.Ok? && Compared(ps, r.value)
  {
    if ps == [] {
      return Err(ExecutionFailed("compare_prices", UnexpectedMessage));
    }
    var prices, lowest, store := CompareLoop(ps);
    r := Ok(CompareResult(ps[0].name, prices, lowest, store));
  }

  /** compare_prices as intended: an empty group gives an empty comparison
      for "Unknown". */
  method ComparePrices(ps: seq<M.Product>) returns (r: CompareResult)
    ensures ps == [] ==> r == CompareResult("Unknown", [], None, "")
    ensures ps != [] ==> Compared(ps, r)
  {
    if ps == [] {
      return CompareResult("Unknown", [], None, "");
    }
    var prices, lowest, store := CompareLoop(ps);
    r := CompareResult(ps[0].name, prices, lowest, store);
  }

  // ---------------------------------------------------------------
  // scrape_product
  // ---------------------------------------------------------------

  datatype ProductResult = ProductResult(
    success: bool,
    productId: Option<int>,
    name: string,
    price: Option<real>,
    store: string,
    message: string,
    url: string)

  /** f"{value}" of an optional text. */
  function Shown(s: Option<string>): string
  {
    if s.Some? then s.value else "None"
  }

  /** A text field of the scraped data, when it holds a string. */
  function TextOf(j: Json): Option<string>
  {
    if j.JStr? then Some(j.s) else None
  }

  /** The first live product with this URL (get_product_by_url). */
  function TrackedAt(products: seq<M.Product>, url: string): (r: Option<nat>)
    reads products
    ensures r.Some? ==> r.value < |products| && products[r.value].url == url && products[r.value].deletedAt.None?
    ensures r.None? ==> forall i :: 0 <= i < |products| ==> !(products[i].url == url && products[i].deletedAt.None?)
  {
    if products == [] then None
    else if products[0].url == url && products[0].deletedAt.None? then Some(0)
    else
      var r := TrackedAt(products[1..], url);
      if r.Some? then Some(r.value + 1) else None
  }

  /** The product and price-history tables scrape_product writes. */
  class Catalog {
    var products: seq<M.Product>
    var priceHistory: seq<M.PriceHistory>

    constructor(products: seq<M.Product>, priceHistory: seq<M.PriceHistory>)
      ensures this.products == products && this.priceHistory == priceHistory
    {
      this.products := products;
      this.priceHistory := priceHistory;
    }

    /** scrape_product: a rejected URL raises; everything else is decided
        on the normalised URL and its domain. `sync` is the agent's sync
        service, `api` the embedding API and `format2` the price format its
        documents use. */
    method ScrapeProduct(url: string, store: M.Store?, scrape: string -> E.ScrapeResult, newId: int, now: real,
                         sync: Sync.IndexSync, api: string -> Result<Embeddings.EmbeddingResult, string>,
                         format2: real -> string)
      returns (r: Result<ProductResult, ToolError>)
      modifies this, sync.index
      ensures S.ValidateUrl(url).Invalid? ==>
                r == Err(UrlRejected("scrape_product", S.ValidateUrl(url).error)) && unchanged(this)
                && sync.index.docs == old(sync.index.docs)
      ensures S.ValidateUrl(url).Valid? ==>
                Tracked(old(products), old(priceHistory), products, priceHistory, S.ValidateUrl(url).url,
                        S.ExtractDomain(S.ValidateUrl(url).url), store, newId, now, r)
      ensures IndexedNew(old(products), products, old(sync.index.docs), sync.index.docs, api, format2, r)
    {
      var checked := S.ValidateUrl(url);
      if checked.Invalid? {
        return Err(UrlRejected("scrape_product", checked.error));
      }
      r := Track(checked.url, S.ExtractDomain(checked.url), store, scrape, newId, now, sync, api, format2);
    }

    /** The rest of scrape_product on a valid URL u of the given domain. */
    method Track(u: string, domain: string, store: M.Store?, scrape: string -> E.ScrapeResult, newId: int, now: real,
                 sync: Sync.IndexSync, api: string -> Result<Embeddings.EmbeddingResult, string>,
                 format2: real -> string)
      returns (r: Result<ProductResult, ToolError>)
      modifies this, sync.index
      ensures Tracked(old(products), old(priceHistory), products, priceHistory, u, domain, store, newId, now, r)
      ensures r.Ok? && !r.value.success ==> unchanged(this)
      ensures IndexedNew(old(products), products, old(sync.index.docs), sync.index.docs, api, format2, r)
    {
      var existing := TrackedAt(products, u);
      if existing.Some? {
        var p := products[existing.value];
        return Ok(ProductResult(true, Some(p.id), p.name, p.currentPrice, p.storeDomain,
                                "Product is already being tracked", u));
      }
      if store == null || !store.isWhitelisted {
        return Ok(ProductResult(false, None, "", None, "", Unsupported(domain), u));
      }
      var result := scrape(u);
      if !result.success || result.product.None? {
        return Ok(ProductResult(false, None, "", None, "", "Failed to scrape product: " + Shown(result.errorMessage), u));
      }
      r := Adopt(u, domain, result.product.value, newId, now, sync, api, format2);
    }

    /** The new product, its first price record and its index entry for a
        successful scrape that found `d`. */
    method Adopt(u: string, domain: string, d: St.ProductData, newId: int, now: real,
                 sync: Sync.IndexSync, api: string -> Result<Embeddings.EmbeddingResult, string>,
                 format2: real -> string)
      returns (r: Result<ProductResult, ToolError>)
      modifies this, sync.index
      ensures |products| == |old(products)| + 1 && products[..|old(products)|] == old(products)
      ensures |priceHistory| == |old(priceHistory)| + 1 && priceHistory[..|old(priceHistory)|] == old(priceHistory)
      ensures var p := products[|old(products)|];
              && p.id == newId && p.url == u && p.storeDomain == domain
              && p.status == M.Active && p.lastCheckedAt == Some(now)
              && priceHistory[|old(priceHistory)|].productId == newId && priceHistory[|old(priceHistory)|].scrapedAt == now
              && r == Ok(ProductResult(true, Some(newId), p.name, p.currentPrice, domain, "Product is now being tracked!", u))
              && sync.index.docs == Sync.Indexed(old(sync.index.docs), p.id, Sync.Metadata(p), Sync.Document(p, format2),
                                                 Embeddings.EmbedText(Sync.Document(p, format2), api))
    {
      var p := NewProduct(u, domain, d, newId, now);
      products := products + [p];
      priceHistory := priceHistory + [M.PriceHistory(newId, if d.price.Some? then d.price.value else 0.0,
                                                     d.originalPrice, d.inStock, now)];
      var indexed := sync.IndexProduct(p, api, format2);
      r := Ok(ProductResult(true, Some(newId), p.name, p.currentPrice, domain, "Product is now being tracked!", u));
    }
  }

  /** The product row created from a successful scrape. */
  method NewProduct(u: string, domain: string, d: St.ProductData, newId: int, now: real) returns (p: M.Product)
    ensures fresh(p)
    ensures p.id == newId && p.url == u && p.storeDomain == domain && p.name == (if d.name.Some? then d.name.value else "")
    ensures p.currentPrice == d.price && p.originalPrice == d.originalPrice && p.inStock == d.inStock
    ensures p.brand == TextOf(d.brand) && p.imageUrl == TextOf(d.imageUrl)
    ensures p.status == M.Active && p.lastCheckedAt == Some(now) && p.deletedAt.None?
  {
    p := new M.Product(newId, u, domain, if d.name.Some? then d.name.value else "", now);
    p.brand := TextOf(d.brand);
    p.currentPrice := d.price;
    p.originalPrice := d.originalPrice;
    p.inStock := d.inStock;
    p.imageUrl := TextOf(d.imageUrl);
    p.lastCheckedAt := Some(now);
  }

  function Unsupported(domain: string): string
  {
    "Store '" + domain + "' is not supported. Use scan_website first to analyze unknown stores."
  }

  /** index_product's part of scrape_product: the product a successful
      answer added is indexed (Sync.Indexed: added when its embedding
      succeeds, the index unchanged when it fails, since index_product
      catches the error); any other answer leaves the index as it was. */
  ghost predicate IndexedNew(products0: seq<M.Product>, products: seq<M.Product>,
                             docs0: map<string, RagIndex.Entry>, docs: map<string, RagIndex.Entry>,
                             api: string -> Result<Embeddings.EmbeddingResult, string>, format2: real -> string,
                             r: Result<ProductResult, ToolError>)
    reads products
  {
    if r.Ok? && r.value.success && |products| == |products0| + 1 then
      var p := products[|products0|];
      docs == Sync.Indexed(docs0, p.id, Sync.Metadata(p), Sync.Document(p, format2),
                           Embeddings.EmbedText(Sync.Document(p, format2), api))
    else docs == docs0
  }

  /** What scrape_product promises on a valid URL u of the given domain: a
      URL already tracked is answered from the table; an unknown or
      unlisted store is refused; only a successful scrape of a whitelisted
      store adds one product (and one price record), and nothing else
      writes the tables. */
  ghost predicate Tracked(products0: seq<M.Product>, history0: seq<M.PriceHistory>,
                          products: seq<M.Product>, history: seq<M.PriceHistory>,
                          u: string, domain: string, store: M.Store?, newId: int, now: real,
                          r: Result<ProductResult, ToolError>)
    reads products0, products, store
  {
    && r.Ok?
    && (TrackedAt(products0, u).Some? ==>
          && products == products0 && history == history0 && r.value.success
          && r.value.message == "Product is already being tracked"
          && var p := products0[TrackedAt(products0, u).value];
             r.value.productId == Some(p.id) && r.value.price == p.currentPrice)
    && (TrackedAt(products0, u).None? && (store == null || !store.isWhitelisted) ==>
          && products == products0 && history == history0 && !r.value.success
          && r.value.message == Unsupported(domain))
    && (!r.value.success ==> products == products0 && history == history0)
    && (r.value.success && TrackedAt(products0, u).None? ==>
          && store != null && store.isWhitelisted
          && |products| == |products0| + 1 && products[..|products0|] == products0
          && |history| == |history0| + 1 && history[..|history0|] == history0
          && var p := products[|products0|];
             && p.id == newId && p.url == u && p.storeDomain == domain
             && p.status == M.Active && p.lastCheckedAt == Some(now)
             && history[|history0|].productId == newId && history[|history0|].scrapedAt == now
             && r.value.productId == Some(newId))
  }
}
