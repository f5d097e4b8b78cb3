/** The seed configuration of the sixteen supported Canadian stores
    (config/stores_seed.py) and the lookups over it. */
module StoresSeed {
  import opened Common
  import opened JsonValue
  import Models
  import Repository
  import Security

  /** One seed entry: domain, display name, whitelist and active flags, the
      requests-per-minute limit and the selector configuration. */
  datatype StoreEntry = StoreEntry(
    domain: string,
    name: string,
    isWhitelisted: bool,
    isActive: bool,
    rateLimitRpm: int,
    selectors: Json)

  /** P0_STORES. */
  const SeedStores: seq<StoreEntry> := [
    StoreEntry("amazon.ca", "Amazon Canada", true, true, 5,
      JObj(map[
        "json_ld" := JBool(true),
        "price" := JObj(map[
          "css" := JArr([JStr("span.a-price span.a-offscreen"), JStr("#priceblock_ourprice"), JStr("#priceblock_dealprice"), JStr("span.priceToPay span.a-offscreen")])]),
        "name" := JObj(map[
          "css" := JArr([JStr("#productTitle"), JStr("h1.a-size-large")])]),
        "availability" := JObj(map[
          "css" := JArr([JStr("#availability span"), JStr("#outOfStock")]),
          "in_stock_patterns" := JArr([JStr("in stock"), JStr("in_stock"), JStr("available")])]),
        "image" := JObj(map[
          "css" := JArr([JStr("#landingImage"), JStr("#imgBlkFront"), JStr("#main-image-container img")])]),
        "original_price" := JObj(map[
          "css" := JArr([JStr("span.a-price[data-a-strike] span.a-offscreen"), JStr(".basisPrice span.a-offscreen")])]),
        "wait_for" := JStr("#productTitle")])),
    StoreEntry("walmart.ca", "Walmart Canada", true, true, 8,
      JObj(map[
        "json_ld" := JBool(true),
        "price" := JObj(map[
          "css" := JArr([JStr("[data-testid='price-value']"), JStr(".css-1rkhjmb"), JStr("[itemprop='price']")])]),
        "name" := JObj(map[
          "css" := JArr([JStr("h1[itemprop='name']"), JStr("[data-testid='product-title']")])]),
        "availability" := JObj(map[
          "css" := JArr([JStr("[data-testid='add-to-cart-btn']"), JStr(".fulfillment-option")]),
          "in_stock_patterns" := JArr([JStr("add to cart"), JStr("in stock")])]),
        "image" := JObj(map[
          "css" := JArr([JStr("[data-testid='hero-image'] img"), JStr("img.db")])]),
        "wait_for" := JStr("[data-testid='product-title']")])),
    StoreEntry("costco.ca", "Costco Canada", true, true, 6,
      JObj(map[
        "json_ld" := JBool(true),
        "price" := JObj(map[
          "css" := JArr([JStr(".price-info .your-price .value"), JStr("#pull-right-price span"), JStr(".product-price")])]),
        "name" := JObj(map[
          "css" := JArr([JStr("h1.product-name"), JStr(".product-h1-container h1")])]),
        "availability" := JObj(map[
          "css" := JArr([JStr("#add-to-cart-btn"), JStr(".inventory-status")]),
          "in_stock_patterns" := JArr([JStr("add to cart"), JStr("in stock")])]),
        "image" := JObj(map[
          "css" := JArr([JStr(".product-image img"), JStr("#RICHFXViewerContainer img")])]),
        "wait_for" := JStr("h1.product-name")])),
    StoreEntry("canadiantire.ca", "Canadian Tire", true, true, 8,
      JObj(map[
        "json_ld" := JBool(true),
        "price" := JObj(map[
          "css" := JArr([JStr("[data-testid='price']"), JStr(".product-price__actual-price"), JStr("[itemprop='price']")])]),
        "name" := JObj(map[
          "css" := JArr([JStr("h1[data-testid='product-title']"), JStr("h1.pdp-product-title__title")])]),
        "availability" := JObj(map[
          "css" := JArr([JStr("[data-testid='add-to-cart']"), JStr(".fulfillment-options")]),
          "in_stock_patterns" := JArr([JStr("add to cart"), JStr("in stock"), JStr("available")])]),
        "image" := JObj(map[
          "css" := JArr([JStr(".product-image-carousel img"), JStr("[data-testid='product-image']")])]),
        "wait_for" := JStr("h1[data-testid='product-title']")])),
    StoreEntry("bestbuy.ca", "Best Buy Canada", true, true, 8,
      JObj(map[
        "json_ld" := JBool(true),
        "price" := JObj(map[
          "css" := JArr([JStr("[data-automation='product-price'] .price_FHDfG"), JStr(".productPricing_price"), JStr("[itemprop='price']")])]),
        "name" := JObj(map[
          "css" := JArr([JStr("h1.productName_2KoPa"), JStr("[data-automation='product-title']"), JStr("h1")])]),
        "availability" := JObj(map[
          "css" := JArr([JStr("[data-automation='add-to-cart-button']"), JStr(".availabilityMessage_ig-Cp")]),
          "in_stock_patterns" := JArr([JStr("add to cart"), JStr("available"), JStr("in stock")])]),
        "image" := JObj(map[
          "css" := JArr([JStr(".productImage_1pZcy img"), JStr("[data-automation='product-gallery'] img")])]),
        "original_price" := JObj(map[
          "css" := JArr([JStr(".priceWithSavings_3yEes .line-through"), JStr(".wasPrice")])]),
        "wait_for" := JStr("[data-automation='product-title']")])),
    StoreEntry("thesource.ca", "The Source", true, true, 10,
      JObj(map[
        "json_ld" := JBool(true),
        "price" := JObj(map[
          "css" := JArr([JStr(".product-price .price"), JStr("[itemprop='price']"), JStr(".price-box .price")])]),
        "name" := JObj(map[
          "css" := JArr([JStr("h1.page-title"), JStr(".product-info h1")])]),
        "availability" := JObj(map[
          "css" := JArr([JStr(".add-to-cart-buttons button"), JStr(".stock-status")]),
          "in_stock_patterns" := JArr([JStr("add to cart"), JStr("in stock")])]),
        "image" := JObj(map[
          "css" := JArr([JStr(".product-image img"), JStr(".gallery-image img")])]),
        "wait_for" := JStr("h1.page-title")])),
    StoreEntry("memoryexpress.com", "Memory Express", true, true, 10,
      JObj(map[
        "json_ld" := JBool(true),
        "price" := JObj(map[
          "css" := JArr([JStr(".GrandTotal"), JStr(".ProductPrice"), JStr("[itemprop='price']")])]),
        "name" := JObj(map[
          "css" := JArr([JStr("h1.ProductTitle"), JStr(".product-page h1")])]),
        "availability" := JObj(map[
          "css" := JArr([JStr(".AddToCart"), JStr(".InventoryLevelStatus")]),
          "in_stock_patterns" := JArr([JStr("add to cart"), JStr("in stock")])]),
        "image" := JObj(map[
          "css" := JArr([JStr(".ProductImage img"), JStr("#ProductImage")])]),
        "wait_for" := JStr("h1.ProductTitle")])),
    StoreEntry("canadacomputers.com", "Canada Computers", true, true, 10,
      JObj(map[
        "json_ld" := JBool(true),
        "price" := JObj(map[
          "css" := JArr([JStr(".price-show-panel strong"), JStr("[itemprop='price']"), JStr(".price-display")])]),
        "name" := JObj(map[
          "css" := JArr([JStr("h1.h3"), JStr(".product-name h1"), JStr("h1[itemprop='name']")])]),
        "availability" := JObj(map[
          "css" := JArr([JStr(".btn-add-cart"), JStr(".stocklevel-icon")]),
          "in_stock_patterns" := JArr([JStr("add to cart"), JStr("in stock"), JStr("available online")])]),
        "image" := JObj(map[
          "css" := JArr([JStr(".product-img-main img"), JStr(".productpage-main-image img")])]),
        "wait_for" := JStr(".price-show-panel")])),
    StoreEntry("newegg.ca", "Newegg Canada", true, true, 8,
      JObj(map[
        "json_ld" := JBool(true),
        "price" := JObj(map[
          "css" := JArr([JStr(".product-price .price-current strong"), JStr("[itemprop='price']"), JStr(".price-main-product")])]),
        "name" := JObj(map[
          "css" := JArr([JStr(".product-title h1"), JStr("[itemprop='name']")])]),
        "availability" := JObj(map[
          "css" := JArr([JStr(".product-buy-box .btn-primary"), JStr(".product-inventory")]),
          "in_stock_patterns" := JArr([JStr("add to cart"), JStr("in stock")])]),
        "image" := JObj(map[
          "css" := JArr([JStr(".product-view-img-original"), JStr(".swiper-slide img")])]),
        "original_price" := JObj(map[
          "css" := JArr([JStr(".price-was-data"), JStr(".price-save-percent")])]),
        "wait_for" := JStr(".product-title")])),
    StoreEntry("loblaws.ca", "Loblaws", true, true, 8,
      JObj(map[
        "json_ld" := JBool(true),
        "price" := JObj(map[
          "css" := JArr([JStr("[data-testid='product-price']"), JStr(".product-price__value"), JStr("[data-testid='pdp-price']")])]),
        "name" := JObj(map[
          "css" := JArr([JStr("[data-testid='product-title']"), JStr("h1.product-name")])]),
        "availability" := JObj(map[
          "css" := JArr([JStr("[data-testid='add-to-cart-button']"), JStr(".fulfillment-atc")]),
          "in_stock_patterns" := JArr([JStr("add to cart"), JStr("add to list")])]),
        "image" := JObj(map[
          "css" := JArr([JStr("[data-testid='product-image'] img"), JStr(".product-image-container img")])]),
        "wait_for" := JStr("[data-testid='product-title']")])),
    StoreEntry("nofrills.ca", "No Frills", true, true, 8,
      JObj(map[
        "json_ld" := JBool(true),
        "price" := JObj(map[
          "css" := JArr([JStr("[data-testid='product-price']"), JStr(".product-price__value")])]),
        "name" := JObj(map[
          "css" := JArr([JStr("[data-testid='product-title']"), JStr("h1.product-name")])]),
        "availability" := JObj(map[
          "css" := JArr([JStr("[data-testid='add-to-cart-button']")]),
          "in_stock_patterns" := JArr([JStr("add to cart")])]),
        "image" := JObj(map[
          "css" := JArr([JStr("[data-testid='product-image'] img")])]),
        "wait_for" := JStr("[data-testid='product-title']")])),
    StoreEntry("realcanadiansuperstore.ca", "Real Canadian Superstore", true, true, 8,
      JObj(map[
        "json_ld" := JBool(true),
        "price" := JObj(map[
          "css" := JArr([JStr("[data-testid='product-price']"), JStr(".product-price__value")])]),
        "name" := JObj(map[
          "css" := JArr([JStr("[data-testid='product-title']"), JStr("h1.product-name")])]),
        "availability" := JObj(map[
          "css" := JArr([JStr("[data-testid='add-to-cart-button']")]),
          "in_stock_patterns" := JArr([JStr("add to cart")])]),
        "image" := JObj(map[
          "css" := JArr([JStr("[data-testid='product-image'] img")])]),
        "wait_for" := JStr("[data-testid='product-title']")])),
    StoreEntry("metro.ca", "Metro", true, true, 8,
      JObj(map[
        "json_ld" := JBool(true),
        "price" := JObj(map[
          "css" := JArr([JStr(".price-product-tile .pi--price"), JStr(".product-price"), JStr("[data-main-price]")])]),
        "name" := JObj(map[
          "css" := JArr([JStr(".pi--product-name"), JStr(".product-info h1")])]),
        "availability" := JObj(map[
          "css" := JArr([JStr(".add-to-cart-button"), JStr(".pi--atc-btn")]),
          "in_stock_patterns" := JArr([JStr("add to cart"), JStr("add")])]),
        "image" := JObj(map[
          "css" := JArr([JStr(".pi--product-image img"), JStr(".product-image img")])]),
        "wait_for" := JStr(".pi--product-name")])),
    StoreEntry("sobeys.com", "Sobeys", true, true, 8,
      JObj(map[
        "json_ld" := JBool(true),
        "price" := JObj(map[
          "css" := JArr([JStr(".product-price .price"), JStr("[data-testid='product-price']")])]),
        "name" := JObj(map[
          "css" := JArr([JStr("h1.product-name"), JStr("[data-testid='product-name']")])]),
        "availability" := JObj(map[
          "css" := JArr([JStr("[data-testid='add-to-cart']"), JStr(".add-to-cart")]),
          "in_stock_patterns" := JArr([JStr("add to cart")])]),
        "image" := JObj(map[
          "css" := JArr([JStr(".product-image img"), JStr("[data-testid='product-image']")])]),
        "wait_for" := JStr("h1.product-name")])),
    StoreEntry("shoppersdrugmart.ca", "Shoppers Drug Mart", true, true, 8,
      JObj(map[
        "json_ld" := JBool(true),
        "price" := JObj(map[
          "css" := JArr([JStr(".price-section .price"), JStr("[data-testid='price']"), JStr(".product-price")])]),
        "name" := JObj(map[
          "css" := JArr([JStr("h1.product-name"), JStr("[data-testid='product-name']"), JStr("h1")])]),
        "availability" := JObj(map[
          "css" := JArr([JStr("[data-testid='add-to-cart']"), JStr(".add-to-cart-button")]),
          "in_stock_patterns" := JArr([JStr("add to cart"), JStr("add to bag")])]),
        "image" := JObj(map[
          "css" := JArr([JStr(".product-image-main img"), JStr("[data-testid='product-image']")])]),
        "wait_for" := JStr("h1.product-name")])),
    StoreEntry("homedepot.ca", "Home Depot Canada", true, true, 8,
      JObj(map[
        "json_ld" := JBool(true),
        "price" := JObj(map[
          "css" := JArr([JStr(".price__dollars"), JStr("[data-automation='product-price']"), JStr(".acl-product-price__price")])]),
        "name" := JObj(map[
          "css" := JArr([JStr("h1.product-title"), JStr(".product-details__title h1")])]),
        "availability" := JObj(map[
          "css" := JArr([JStr("[data-automation='add-to-cart']"), JStr(".store-availability")]),
          "in_stock_patterns" := JArr([JStr("add to cart"), JStr("in stock"), JStr("available")])]),
        "image" := JObj(map[
          "css" := JArr([JStr(".mediagallery__mainimage img"), JStr("[data-automation='product-image']")])]),
        "original_price" := JObj(map[
          "css" := JArr([JStr(".acl-product-price__was-price"), JStr(".price--was")])]),
        "wait_for" := JStr("h1.product-title")]))
  ]

  /** The linear search: the first entry with an equal domain. */
  function FindStore(stores: seq<StoreEntry>, domain: string): (r: Option<StoreEntry>)
    ensures r.Some? ==> exists i :: 0 <= i < |stores| && stores[i] == r.value && r.value.domain == domain
                         && forall j :: 0 <= j < i ==> stores[j].domain != domain
    ensures r.None? <==> forall i :: 0 <= i < |stores| ==> stores[i].domain != domain
  {
    if stores == [] then None
    else if stores[0].domain == domain then Some(stores[0])
    else
      var r := FindStore(stores[1..], domain);
      assert forall i :: 1 <= i < |stores| ==> stores[i] == stores[1..][i - 1];
      r
  }

  /** get_store_config. */
  function GetStoreConfig(domain: string): (r: Option<StoreEntry>)
    ensures r.Some? ==> r.value in SeedStores && r.value.domain == Security.StripWww(domain)
    ensures r.None? <==> forall i :: 0 <= i < |SeedStores| ==> SeedStores[i].domain != Security.StripWww(domain)
  {
    FindStore(SeedStores, Security.StripWww(domain))
  }

  /** get_store_selectors: the entry's selectors, JNull for an unknown domain. */
  function GetStoreSelectors(domain: string): (s: Json)
    ensures GetStoreConfig(domain).None? ==> s == JNull
    ensures GetStoreConfig(domain).Some? ==> s == GetStoreConfig(domain).value.selectors
  {
    match GetStoreConfig(domain)
    case None => JNull
    case Some(e) => e.selectors
  }

  /** store_supports_json_ld: `selectors.get("json_ld", False)` for truthy
      selectors, False otherwise. */
  function StoreSupportsJsonLd(domain: string): (j: Json)
    ensures !Truthy(GetStoreSelectors(domain)) ==> j == JBool(false)
    ensures GetStoreConfig(domain).Some? && WellFormedEntry(GetStoreConfig(domain).value) ==> j == JBool(true)
  {
    var s := GetStoreSelectors(domain);
    var c := GetStoreConfig(domain);
    if Truthy(s) && s.JObj? then
      var j := GetOr(s.m, "json_ld", JBool(false));
      assert c.Some? && WellFormedEntry(c.value) ==> JsonLdOn(c.value.selectors);
      j
    else JBool(false)
  }

  /** Selectors whose "json_ld" entry is true. */
  predicate JsonLdOn(s: Json)
  {
    s.JObj? && "json_ld" in s.m && s.m["json_ld"] == JBool(true)
  }

  /** Every seed entry has "price" and "name" selectors, json_ld switched on
      and no "xpath" entry. */
  predicate WellFormedEntry(e: StoreEntry)
  {
    e.selectors.JObj? && "price" in e.selectors.m && "name" in e.selectors.m
    && GetOr(e.selectors.m, "json_ld", JNull) == JBool(true) && "xpath" !in e.selectors.m
  }

  lemma SeedShape()
    ensures |SeedStores| == 16
    ensures forall i :: 0 <= i < |SeedStores| ==> WellFormedEntry(SeedStores[i])
  {
    FirstEntriesWellFormed();
    LastEntriesWellFormed();
  }

  /** The first eight seed entries are well formed. */
  lemma FirstEntriesWellFormed()
    ensures |SeedStores| == 16
    ensures forall i :: 0 <= i < 8 ==> WellFormedEntry(SeedStores[i])
  {
  }

  /** The last eight seed entries are well formed. */
  lemma LastEntriesWellFormed()
    ensures |SeedStores| == 16
    ensures forall i :: 8 <= i < 16 ==> WellFormedEntry(SeedStores[i])
  {
  }

  /** The domains of the seed entries, in order. */
  lemma SeedDomains()
    ensures forall i :: 0 <= i < |SeedStores| ==> SeedStores[i].domain == Domains[i]
  {
  }

  const Domains: seq<string> := ["amazon.ca", "walmart.ca", "costco.ca", "canadiantire.ca", "bestbuy.ca", "thesource.ca", "memoryexpress.com", "canadacomputers.com", "newegg.ca", "loblaws.ca", "nofrills.ca", "realcanadiansuperstore.ca", "metro.ca", "sobeys.com", "shoppersdrugmart.ca", "homedepot.ca"]

  /** The search finds the entry at the first index carrying the domain. */
  lemma FoundAt(stores: seq<StoreEntry>, domain: string, i: nat)
    requires i < |stores| && stores[i].domain == domain
    requires forall j :: 0 <= j < i ==> stores[j].domain != domain
    ensures FindStore(stores, domain) == Some(stores[i])
  {
    var r := FindStore(stores, domain);
    var k :| 0 <= k < |stores| && stores[k] == r.value && r.value.domain == domain
             && forall j :: 0 <= j < k ==> stores[j].domain != domain;
    assert k == i;
  }

  /** amazon.ca and bestbuy.ca (also written with "www.") support JSON-LD; an
      unknown domain does not. */
  lemma AmazonUsesJsonLd(domain: string)
    requires domain == "amazon.ca"
    ensures StoreSupportsJsonLd(domain) == JBool(true)
  {
    assert domain[0] != 'w';
    assert Security.StripWww(domain) == domain;
    SeedDomains();
    SeedShape();
    FoundAt(SeedStores, domain, 0);
  }

  /** The lookup also accepts the "www." form of a domain. */
  lemma BestBuyUsesJsonLd(domain: string)
    requires domain == "www.bestbuy.ca"
    ensures StoreSupportsJsonLd(domain) == JBool(true)
  {
    SeedDomains();
    assert Security.StripWww(domain) == "bestbuy.ca";
    SeedShape();
    FoundAt(SeedStores, "bestbuy.ca", 4);
  }

  /** A domain outside the seed list has no configuration, no selectors and
      no JSON-LD support. */
  lemma UnknownStore(domain: string)
    requires forall i :: 0 <= i < |Domains| ==> Domains[i] != Security.StripWww(domain)
    ensures GetStoreConfig(domain).None? && GetStoreSelectors(domain) == JNull
    ensures StoreSupportsJsonLd(domain) == JBool(false)
  {
    SeedDomains();
  }

  /** get_store_models: one Store per seed entry, in order, with the entry's
      fields copied. */
  method GetStoreModels(now: real) returns (stores: seq<Models.Store>)
    ensures |stores| == |SeedStores|
    ensures forall i :: 0 <= i < |stores| ==> fresh(stores[i])
    ensures forall i :: 0 <= i < |stores| ==> Copies(stores[i], SeedStores[i])
  {
    stores := [];
    for i := 0 to |SeedStores|
      invariant |stores| == i
      invariant forall k :: 0 <= k < i ==> fresh(stores[k]) && Copies(stores[k], SeedStores[k])
    {
      var e := SeedStores[i];
      var s := new Models.Store(e.domain, e.name, e.isWhitelisted, e.isActive, e.rateLimitRpm, e.selectors, now);
      stores := stores + [s];
    }
  }

  /** The store carries the entry's domain, name, flags, limit and selectors. */
  ghost predicate Copies(s: Models.Store, e: StoreEntry)
    reads s
  {
    s.domain == e.domain && s.name == e.name && s.isWhitelisted == e.isWhitelisted
    && s.isActive == e.isActive && s.rateLimitRpm == e.rateLimitRpm && s.selectors == e.selectors
  }

  /** seed_stores: upserts one Store per seed entry into the store table
      and returns how many entries it processed. Every seed domain ends up
      holding a row with its entry's fields, a success rate reset to 1.0 and
      both timestamps set to `now`. */
  method SeedStoresInto(table: map<string, Models.Store>, now: real) returns (count: nat, newTable: map<string, Models.Store>)
    requires DistinctRows(table)
    modifies set d | d in table :: table[d]
    ensures count == |SeedStores|
    ensures newTable.Keys == table.Keys + set i | 0 <= i < |SeedStores| :: SeedStores[i].domain
    ensures forall i :: 0 <= i < |SeedStores| ==> Copied(newTable[SeedStores[i].domain], SeedStores[i], now)
    ensures forall d :: d in table && d !in Domains ==> newTable[d] == table[d] && RowOf(table[d]) == old(RowOf(table[d]))
  {
    SeedDomainsDistinct();
    SeedShape();
    SeedDomains();
    count, newTable := UpsertEntries(SeedStores, table, now);
    forall i | 0 <= i < |SeedStores|
      ensures Copied(newTable[SeedStores[i].domain], SeedStores[i], now)
    {
      assert LastFor(SeedStores, i, |SeedStores|);
    }
  }

  /** The domains of the first `n` entries. */
  function Seen(entries: seq<StoreEntry>, n: nat): set<string>
    requires n <= |entries|
  {
    set k | 0 <= k < n :: entries[k].domain
  }

  /** Adding the i-th entry's domain to a key set covering the first i
      entries covers the first i + 1. */
  lemma SeenStep(entries: seq<StoreEntry>, i: nat, known: set<string>, keys: set<string>)
    requires i < |entries| && keys == known + Seen(entries, i)
    ensures keys + {entries[i].domain} == known + Seen(entries, i + 1)
  {
    assert forall d :: d in Seen(entries, i + 1) ==> d in Seen(entries, i) || d == entries[i].domain;
  }

  /** Every column of a store row, as one value. */
  datatype Row = Row(domain: string, name: string, isWhitelisted: bool, isActive: bool, selectors: Json,
                     rateLimitRpm: int, successRate: real, lastSuccessAt: Option<real>, createdAt: real, updatedAt: real)

  ghost function RowOf(s: Models.Store): Row
    reads s
  {
    Row(s.domain, s.name, s.isWhitelisted, s.isActive, s.selectors, s.rateLimitRpm, s.successRate, s.lastSuccessAt, s.createdAt, s.updatedAt)
  }

  /** No two rows of the table are the same object. */
  ghost predicate DistinctRows(table: map<string, Models.Store>)
  {
    forall d1, d2 :: d1 in table && d2 in table && d1 != d2 ==> table[d1] != table[d2]
  }

  /** No entry after index `i` and before `n` carries the same domain. */
  predicate LastFor(entries: seq<StoreEntry>, i: nat, n: nat)
    requires i < n <= |entries|
  {
    forall k :: i < k < n ==> entries[k].domain != entries[i].domain
  }

  /** What upserting `e` at time `now` leaves in the row: the entry's name,
      flags and rate limit, its selectors unless they are null, a success
      rate of 1.0 and both timestamps at `now`. */
  ghost predicate Stored(s: Models.Store, e: StoreEntry, now: real)
    reads s
  {
    s.name == e.name && s.isWhitelisted == e.isWhitelisted && s.isActive == e.isActive
    && s.rateLimitRpm == e.rateLimitRpm && (e.selectors != JNull ==> s.selectors == e.selectors)
    && s.successRate == 1.0 && s.createdAt == now && s.updatedAt == now
  }

  /** A stored row that also carries the entry's selectors. */
  ghost predicate Copied(s: Models.Store, e: StoreEntry, now: real)
    reads s
  {
    Stored(s, e, now) && s.selectors == e.selectors
  }

  /** The sixteen seed domains are pairwise different. */
  lemma SeedDomainsDistinct()
    ensures forall i, j :: 0 <= i < j < |SeedStores| ==> SeedStores[i].domain != SeedStores[j].domain
  {
    SeedDomains();
    forall i, j | 0 <= i < j < |Domains|
      ensures Domains[i] != Domains[j]
    {
      DomainsDiffer(i, j);
    }
  }

  /** Two seed domains at different positions differ. */
  lemma DomainsDiffer(i: nat, j: nat)
    requires i < j < |Domains|
    ensures Domains[i] != Domains[j]
  {
    assert |Domains[i]| != |Domains[j]| || Domains[i][0] != Domains[j][0] || Domains[i][1] != Domains[j][1] || Domains[i][2] != Domains[j][2];
  }

  /** The loop of seed_stores over any list of entries: for every domain, the
      last entry carrying it decides the row's fields; rows of other domains
      are left alone; the last success time is never touched. */
  method UpsertEntries(entries: seq<StoreEntry>, table: map<string, Models.Store>, now: real)
    returns (count: nat, newTable: map<string, Models.Store>)
    requires DistinctRows(table)
    modifies set d | d in table :: table[d]
    ensures count == |entries|
    ensures newTable.Keys == table.Keys + Seen(entries, |entries|)
    ensures forall i :: 0 <= i < |entries| && LastFor(entries, i, |entries|) ==> Stored(newTable[entries[i].domain], entries[i], now)
    ensures forall d :: d in newTable && d !in table ==> fresh(newTable[d]) && newTable[d].domain == d && newTable[d].lastSuccessAt.None?
    ensures forall d :: d in table ==> newTable[d] == table[d] && newTable[d].lastSuccessAt == old(table[d].lastSuccessAt)
    ensures forall d :: d in table && d !in Seen(entries, |entries|) ==> RowOf(table[d]) == old(RowOf(table[d]))
  {
    ghost var rows := map d | d in table :: RowOf(table[d]);
    count := 0;
    newTable := table;
    for i := 0 to |entries|
      invariant count == i
      invariant Upserting(entries, i, table, rows, newTable, now)
      invariant forall d :: d in newTable && d !in table ==> fresh(newTable[d])
    {
      newTable := UpsertTurn(entries, i, table, rows, newTable, now);
      count := count + 1;
    }
  }

  /** The seeding loop's invariant after the first `i` entries: `t` holds
      the old rows and one row per domain seen; every new row carries its
      domain and no success time; the old rows keep their success times;
      each domain's last entry so far is stored; and an old row no entry
      has named yet still equals its snapshot in `rows`. */
  ghost predicate Upserting(entries: seq<StoreEntry>, i: nat, table: map<string, Models.Store>, rows: map<string, Row>,
                            t: map<string, Models.Store>, now: real)
    requires i <= |entries|
    reads set d | d in t :: t[d]
    reads set d | d in table :: table[d]
  {
    && rows.Keys == table.Keys
    && t.Keys == table.Keys + Seen(entries, i)
    && DistinctRows(t)
    && (forall d :: d in t && d !in table ==> t[d].domain == d && t[d].lastSuccessAt.None?)
    && (forall d :: d in table ==> t[d] == table[d] && t[d].lastSuccessAt == rows[d].lastSuccessAt)
    && (forall k :: 0 <= k < i && LastFor(entries, k, i) ==> entries[k].domain in t && Stored(t[entries[k].domain], entries[k], now))
    && (forall d :: d in table && d !in Seen(entries, i) ==> RowOf(table[d]) == rows[d])
  }

  /** One turn of the seeding loop: the invariant at `i` gives the invariant
      at `i + 1`; `rows` holds the rows of `table` before the loop. */
  method UpsertTurn(entries: seq<StoreEntry>, i: nat, table: map<string, Models.Store>, ghost rows: map<string, Row>,
                    prev: map<string, Models.Store>, now: real)
    returns (t: map<string, Models.Store>)
    requires i < |entries|
    requires Upserting(entries, i, table, rows, prev, now)
    modifies if entries[i].domain in prev then {prev[entries[i].domain]} else {}
    ensures Upserting(entries, i + 1, table, rows, t, now)
    ensures prev.Keys <= t.Keys && forall d :: d in prev ==> t[d] == prev[d]
    ensures forall d :: d in t && d !in prev ==> fresh(t[d])
  {
    t := UpsertRound(entries, i, table, rows, prev, now);
  }

  /** UpsertTurn with the invariant after the round spelled out clause by
      clause. */
  method UpsertRound(entries: seq<StoreEntry>, i: nat, table: map<string, Models.Store>, ghost rows: map<string, Row>,
                     prev: map<string, Models.Store>, now: real)
    returns (t: map<string, Models.Store>)
    requires i < |entries|
    requires Upserting(entries, i, table, rows, prev, now)
    modifies if entries[i].domain in prev then {prev[entries[i].domain]} else {}
    ensures rows.Keys == table.Keys
    ensures t.Keys == table.Keys + Seen(entries, i + 1) && prev.Keys <= t.Keys
    ensures forall d :: d in prev ==> t[d] == prev[d]
    ensures forall d :: d in t && d !in prev ==> fresh(t[d])
    ensures DistinctRows(t)
    ensures forall d :: d in t && d !in table ==> t[d].domain == d && t[d].lastSuccessAt.None?
    ensures forall d :: d in table ==> t[d] == table[d] && t[d].lastSuccessAt == rows[d].lastSuccessAt
    ensures forall k :: 0 <= k < i + 1 && LastFor(entries, k, i + 1) ==> entries[k].domain in t && Stored(t[entries[k].domain], entries[k], now)
    ensures forall d :: d in table && d !in Seen(entries, i + 1) ==> RowOf(table[d]) == rows[d]
  {
    ghost var keys := prev.Keys;
    t := UpsertStep(entries, i, table.Keys, prev, now);
    SeenStep(entries, i, table.Keys, keys);
  }

  /** The body of the seeding loop at index `i`, with what it keeps of the
      loop's invariant: the rows decided by the last entry so far, the
      distinctness of rows and the untouched last success times. */
  method UpsertStep(entries: seq<StoreEntry>, i: nat, known: set<string>, prev: map<string, Models.Store>, now: real)
    returns (t: map<string, Models.Store>)
    requires i < |entries|
    requires DistinctRows(prev)
    requires forall k :: 0 <= k < i && LastFor(entries, k, i) ==> entries[k].domain in prev && Stored(prev[entries[k].domain], entries[k], now)
    requires forall d :: d in prev && d !in known ==> prev[d].domain == d && prev[d].lastSuccessAt.None?
    modifies if entries[i].domain in prev then {prev[entries[i].domain]} else {}
    ensures t.Keys == prev.Keys + {entries[i].domain}
    ensures forall d :: d in prev ==> t[d] == prev[d] && t[d].lastSuccessAt == old(prev[d].lastSuccessAt)
    ensures entries[i].domain !in prev ==> fresh(t[entries[i].domain])
    ensures DistinctRows(t)
    ensures forall d :: d in t && d !in known ==> t[d].domain == d && t[d].lastSuccessAt.None?
    ensures forall k :: 0 <= k < i + 1 && LastFor(entries, k, i + 1) ==> entries[k].domain in t && Stored(t[entries[k].domain], entries[k], now)
    ensures forall d :: d in prev && d != entries[i].domain ==> RowOf(prev[d]) == old(RowOf(prev[d]))
  {
    var e := entries[i];
    t := UpsertEntry(e, prev, now);
    forall d | d in prev && d != e.domain
      ensures t[d] == prev[d] && RowOf(prev[d]) == old(RowOf(prev[d]))
    {
      assert e.domain in prev ==> prev[d] != prev[e.domain];
    }
    forall d | d in t && d !in known
      ensures t[d].domain == d && t[d].lastSuccessAt.None?
    {
      if d != e.domain {
        assert old(prev[d].domain == d && prev[d].lastSuccessAt.None?);
      }
    }
    forall k | 0 <= k < i + 1 && LastFor(entries, k, i + 1)
      ensures Stored(t[entries[k].domain], entries[k], now)
    {
      if k < i {
        var d := entries[k].domain;
        assert LastFor(entries, k, i) && d != e.domain;
        assert old(Stored(prev[d], entries[k], now)) && RowOf(prev[d]) == old(RowOf(prev[d]));
      }
    }
  }

  /** One round of the seeding loop: the entry's store upserted into the
      table. A new domain gets a fresh row built from the entry; an existing
      row is overwritten field by field, keeping its selectors when the
      entry's are null and keeping its last success time. */
  method UpsertEntry(e: StoreEntry, table: map<string, Models.Store>, now: real) returns (newTable: map<string, Models.Store>)
    modifies if e.domain in table then {table[e.domain]} else {}
    ensures newTable.Keys == table.Keys + {e.domain}
    ensures forall d :: d in table ==> newTable[d] == table[d]
    ensures e.domain !in table ==> fresh(newTable[e.domain]) && Copied(newTable[e.domain], e, now)
    ensures e.domain !in table ==> newTable[e.domain].domain == e.domain && newTable[e.domain].lastSuccessAt.None?
    ensures e.domain in table ==> Stored(table[e.domain], e, now)
    ensures e.domain in table ==> table[e.domain].lastSuccessAt == old(table[e.domain].lastSuccessAt)
    ensures e.domain in table ==> table[e.domain].domain == old(table[e.domain].domain)
    ensures e.domain in table && e.selectors == JNull ==> table[e.domain].selectors == old(table[e.domain].selectors)
  {
    var s := new Models.Store(e.domain, e.name, e.isWhitelisted, e.isActive, e.rateLimitRpm, e.selectors, now);
    var _, t := Repository.UpsertStore(table, s, now);
    newTable := t;
  }
}
