/** Batch processing of scheduled scrapes: products are grouped by store, each
    store's products are scraped in fixed-size batches, and every scrape
    result updates its product and adds a scrape log (and, when the price
    moved, a price-history row) to the session.

    The scraper's batch call is a parameter: for the URLs of one batch it
    either answers with results or raises. The sleeps between batches and
    stores are not modelled. */
module Batching {
  import opened Common
  import opened JsonValue
  import M = Models
  import E = Engine
  import H = Health
  import Strategies

  const DefaultBatchSize: int := 10
  const DefaultInterBatchDelay: real := 2.0
  const ErrorAfterFailures: int := 3
  const PriceTolerance: real := 0.01

  /** What scrape_batch does for one batch of URLs. */
  datatype BatchAnswer = Scraped(results: seq<E.ScrapeResult>) | Raised(message: string)

  /** The text _process_result and process_single return. */
  datatype Status = Success | Failed | Skipped
  {
    function Name(): string
    {
      match this
      case Success => "success"
      case Failed => "failed"
      case Skipped => "skipped"
    }
  }

  datatype Counts = Counts(successful: nat, failed: nat, skipped: nat)
  {
    function Plus(other: Counts): Counts
    {
      Counts(successful + other.successful, failed + other.failed, skipped + other.skipped)
    }

    function Sum(): nat
    {
      successful + failed + skipped
    }
  }

  const Zero: Counts := Counts(0, 0, 0)

  /** The rows a processing run adds to the session. */
  class Session {
    var scrapeLogs: seq<M.ScrapeLog>
    var priceHistory: seq<M.PriceHistory>

    constructor()
      ensures scrapeLogs == [] && priceHistory == []
    {
      scrapeLogs := [];
      priceHistory := [];
    }
  }

  // ---------------------------------------------------------------
  // One result
  // ---------------------------------------------------------------

  /** `result.success and result.product`. */
  predicate Succeeds(r: E.ScrapeResult)
  {
    r.success && r.product.Some?
  }

  /** A successful result carries a price (the engine's results always do;
      without one the price comparison would raise). */
  predicate Priced(r: E.ScrapeResult)
  {
    Succeeds(r) ==> r.product.value.price.Some?
  }

  /** A price-history row is written when there was no price or it moved by
      more than a cent. */
  predicate PriceMoved(oldPrice: Option<real>, newPrice: real)
  {
    oldPrice.None? || oldPrice.value - newPrice > PriceTolerance || newPrice - oldPrice.value > PriceTolerance
  }

  /** The scrape log written for every result. */
  function LogOf(productId: int, r: E.ScrapeResult, now: real): M.ScrapeLog
  {
    M.ScrapeLog(productId, r.success, r.strategyUsed, r.errorType, r.errorMessage, Some(r.responseTimeMs), now)
  }

  /** `if new and not current: current = new` for a text-valued JSON field. */
  function FillText(current: Option<string>, found: Json): Option<string>
  {
    if Truthy(found) && found.JStr? && !TruthyText(current) then Some(found.s) else current
  }

  /** The failure counter and status after a failed scrape. */
  function AfterFailure(failures: int, status: M.ProductStatus): (int, M.ProductStatus)
  {
    var n := failures + 1;
    (n, if n >= ErrorAfterFailures then M.ErrorStatus else status)
  }

  /** Three failures in a row leave a product in ERROR, whatever its state
      before, and further failures keep it there. */
  lemma ThreeFailuresMeanError(failures: int, status: M.ProductStatus)
    requires failures >= 0
    ensures var s1 := AfterFailure(failures, status);
            var s2 := AfterFailure(s1.0, s1.1);
            var s3 := AfterFailure(s2.0, s2.1);
            && s3.1 == M.ErrorStatus && s3.0 == failures + 3
            && AfterFailure(s3.0, s3.1).1 == M.ErrorStatus
  {
  }

  /** _process_result: log the result, then apply it to the product. */
  method ProcessResult(session: Session, product: M.Product, result: E.ScrapeResult, now: real)
    returns (status: Status)
    requires Priced(result)
    modifies session, product
    ensures status == (if Succeeds(result) then Success else Failed)
    ensures session.scrapeLogs == old(session.scrapeLogs) + [LogOf(product.id, result, now)]
    ensures product.id == old(product.id) && product.url == old(product.url)
    ensures product.storeDomain == old(product.storeDomain) && product.upc == old(product.upc)
    ensures product.currency == old(product.currency) && product.canonicalId == old(product.canonicalId)
    ensures product.deletedAt == old(product.deletedAt)
    ensures product.lastCheckedAt == Some(now) && product.updatedAt == now
    ensures Succeeds(result) ==> Refreshed(session, product, result.product.value, now)
    ensures !Succeeds(result) ==>
              && (product.consecutiveFailures, product.status) == AfterFailure(old(product.consecutiveFailures), old(product.status))
              && product.name == old(product.name) && product.brand == old(product.brand)
              && product.imageUrl == old(product.imageUrl) && product.currentPrice == old(product.currentPrice)
              && product.originalPrice == old(product.originalPrice) && product.inStock == old(product.inStock)
              && session.priceHistory == old(session.priceHistory)
  {
    session.scrapeLogs := session.scrapeLogs + [LogOf(product.id, result, now)];
    if Succeeds(result) {
      ApplySuccess(session, product, result.product.value, now);
      status := Success;
    } else {
      ApplyFailure(product, now);
      status := Failed;
    }
  }

  /** The product and price history after a successful scrape that found `d`. */
  twostate predicate Refreshed(session: Session, product: M.Product, d: Strategies.ProductData, now: real)
    requires d.price.Some?
    reads session, product
  {
    && product.currentPrice == d.price && product.originalPrice == d.originalPrice
    && product.inStock == d.inStock && product.consecutiveFailures == 0
    && product.status == old(product.status)
    && product.name == (if TruthyText(d.name) && old(product.name) == "" then d.name.value else old(product.name))
    && product.brand == FillText(old(product.brand), d.brand)
    && product.imageUrl == FillText(old(product.imageUrl), d.imageUrl)
    && session.priceHistory == old(session.priceHistory)
         + (if PriceMoved(old(product.currentPrice), d.price.value)
            then [M.PriceHistory(product.id, d.price.value, d.originalPrice, d.inStock, now)]
            else [])
  }

  /** The success branch of _process_result. */
  method ApplySuccess(session: Session, product: M.Product, d: Strategies.ProductData, now: real)
    requires d.price.Some?
    modifies session, product
    ensures Refreshed(session, product, d, now)
    ensures session.scrapeLogs == old(session.scrapeLogs)
    ensures product.id == old(product.id) && product.url == old(product.url)
    ensures product.storeDomain == old(product.storeDomain) && product.upc == old(product.upc)
    ensures product.currency == old(product.currency) && product.canonicalId == old(product.canonicalId)
    ensures product.deletedAt == old(product.deletedAt)
    ensures product.lastCheckedAt == Some(now) && product.updatedAt == now
  {
    var oldPrice := product.currentPrice;
    product.currentPrice := d.price;
    product.originalPrice := d.originalPrice;
    product.inStock := d.inStock;
    product.lastCheckedAt := Some(now);
    product.consecutiveFailures := 0;
    product.updatedAt := now;
    FillDetails(product, d);
    RecordPrice(session, product.id, oldPrice, d, now);
  }

  /** Name, brand and image are taken from the scrape only when missing. */
  method FillDetails(product: M.Product, d: Strategies.ProductData)
    modifies product
    ensures product.name == (if TruthyText(d.name) && old(product.name) == "" then d.name.value else old(product.name))
    ensures product.brand == FillText(old(product.brand), d.brand)
    ensures product.imageUrl == FillText(old(product.imageUrl), d.imageUrl)
    ensures product.id == old(product.id) && product.url == old(product.url)
    ensures product.storeDomain == old(product.storeDomain) && product.upc == old(product.upc)
    ensures product.currency == old(product.currency) && product.canonicalId == old(product.canonicalId)
    ensures product.deletedAt == old(product.deletedAt) && product.status == old(product.status)
    ensures product.currentPrice == old(product.currentPrice) && product.originalPrice == old(product.originalPrice)
    ensures product.inStock == old(product.inStock) && product.consecutiveFailures == old(product.consecutiveFailures)
    ensures product.lastCheckedAt == old(product.lastCheckedAt) && product.updatedAt == old(product.updatedAt)
  {
    if TruthyText(d.name) && product.name == "" {
      product.name := d.name.value;
    }
    product.brand := FillText(product.brand, d.brand);
    product.imageUrl := FillText(product.imageUrl, d.imageUrl);
  }

  /** The price-history row of a successful scrape, when the price moved. */
  method RecordPrice(session: Session, productId: int, oldPrice: Option<real>, d: Strategies.ProductData, now: real)
    requires d.price.Some?
    modifies session
    ensures session.priceHistory == old(session.priceHistory)
              + (if PriceMoved(oldPrice, d.price.value)
                 then [M.PriceHistory(productId, d.price.value, d.originalPrice, d.inStock, now)]
                 else [])
    ensures session.scrapeLogs == old(session.scrapeLogs)
  {
    if PriceMoved(oldPrice, d.price.value) {
      session.priceHistory := session.priceHistory
        + [M.PriceHistory(productId, d.price.value, d.originalPrice, d.inStock, now)];
    }
  }

  /** The failure branch of _process_result. */
  method ApplyFailure(product: M.Product, now: real)
    modifies product
    ensures (product.consecutiveFailures, product.status) == AfterFailure(old(product.consecutiveFailures), old(product.status))
    ensures product.name == old(product.name) && product.brand == old(product.brand)
    ensures product.imageUrl == old(product.imageUrl) && product.currentPrice == old(product.currentPrice)
    ensures product.originalPrice == old(product.originalPrice) && product.inStock == old(product.inStock)
    ensures product.id == old(product.id) && product.url == old(product.url)
    ensures product.storeDomain == old(product.storeDomain) && product.upc == old(product.upc)
    ensures product.currency == old(product.currency) && product.canonicalId == old(product.canonicalId)
    ensures product.deletedAt == old(product.deletedAt)
    ensures product.lastCheckedAt == Some(now) && product.updatedAt == now
  {
    var after := AfterFailure(product.consecutiveFailures, product.status);
    product.consecutiveFailures := after.0;
    product.lastCheckedAt := Some(now);
    product.updatedAt := now;
    product.status := after.1;
  }

  // ---------------------------------------------------------------
  // Batches
  // ---------------------------------------------------------------

  /** The consecutive slices `urls[i:i + size]` for i = 0, size, 2*size, ... */
  function Batches(urls: seq<string>, size: nat): (bs: seq<seq<string>>)
    requires size > 0
    decreases |urls|
  {
    if urls == [] then []
    else
      var m := Min(size, |urls|);
      [urls[..m]] + Batches(urls[m..], size)
  }

  function Concat(bs: seq<seq<string>>): seq<string>
  {
    if bs == [] then [] else bs[0] + Concat(bs[1..])
  }

  /** The batches cover the list, in order, with nothing repeated, and all
      but the last are full. */
  lemma {:induction false} BatchesCover(urls: seq<string>, size: nat)
    requires size > 0
    ensures Concat(Batches(urls, size)) == urls
    ensures forall k :: 0 <= k < |Batches(urls, size)| - 1 ==> |Batches(urls, size)[k]| == size
    decreases |urls|
  {
    if urls != [] {
      var m := Min(size, |urls|);
      BatchesCover(urls[m..], size);
      assert urls[..m] + urls[m..] == urls;
      var bs := Batches(urls, size);
      assert bs[1..] == Batches(urls[m..], size);
      if |urls| < size {
        assert urls[m..] == [];
      }
    }
  }

  /** The successful scrapes among the first n results. */
  function Succeeded(rs: seq<E.ScrapeResult>, n: nat): (k: nat)
    requires n <= |rs|
    ensures k <= n
  {
    if n == 0 then 0 else Succeeded(rs, n - 1) + (if Succeeds(rs[n - 1]) then 1 else 0)
  }

  /** What one batch adds to the counters: a raising scrape fails the whole
      batch; otherwise results are paired with products (zip with strict=True
      processes the common prefix and then raises if the lengths differ,
      which fails the whole batch on top). */
  function BatchTally(size: nat, answer: BatchAnswer): (c: Counts)
    ensures c.skipped == 0
    ensures answer.Raised? ==> c == Counts(0, size, 0)
    ensures answer.Scraped? && |answer.results| == size ==>
              c.successful + c.failed == size && c.successful == Succeeded(answer.results, size)
  {
    match answer
    case Raised(_) => Counts(0, size, 0)
    case Scraped(results) =>
      var m := Min(|results|, size);
      var s := Succeeded(results, m);
      Counts(s, m - s + (if |results| != size then size else 0), 0)
  }

  /** The counters of the batch urls[lo:hi]. */
  function BatchCounts(urls: seq<string>, lo: nat, hi: nat, scrapeBatch: seq<string> -> BatchAnswer): Counts
    requires lo <= hi <= |urls|
  {
    BatchTally(hi - lo, scrapeBatch(urls[lo..hi]))
  }

  /** The batches from position i on: the batch at i, then the rest. */
  lemma TallyFrom(urls: seq<string>, i: nat, size: nat, scrapeBatch: seq<string> -> BatchAnswer, m: nat)
    requires size > 0 && i < |urls| && m == Min(size, |urls| - i)
    ensures Tally(urls[i..], size, scrapeBatch)
            == BatchCounts(urls, i, i + m, scrapeBatch).Plus(Tally(urls[i + m..], size, scrapeBatch))
  {
    assert urls[i..][..m] == urls[i..i + m] && urls[i..][m..] == urls[i + m..];
    TallyFront(urls[i..], size, scrapeBatch, m, urls[i..i + m], urls[i + m..]);
  }

  /** One turn of the batch loop keeps the counters plus what is left to
      tally equal to the whole tally. */
  lemma TallyStep(urls: seq<string>, i: nat, size: nat, scrapeBatch: seq<string> -> BatchAnswer, m: nat,
                  counts: Counts, c: Counts, total: Counts)
    requires size > 0 && i < |urls| && m == Min(size, |urls| - i)
    requires c == BatchCounts(urls, i, i + m, scrapeBatch)
    requires counts.Plus(Tally(urls[i..], size, scrapeBatch)) == total
    ensures counts.Plus(c).Plus(Tally(urls[i + m..], size, scrapeBatch)) == total
  {
    TallyFrom(urls, i, size, scrapeBatch, m);
    PlusAssoc(counts, c, Tally(urls[i + m..], size, scrapeBatch));
  }

  /** The first batch of u, then the batches of the rest. */
  lemma TallyFront(u: seq<string>, size: nat, scrapeBatch: seq<string> -> BatchAnswer, m: nat,
                   head: seq<string>, rest: seq<string>)
    requires size > 0 && u != [] && m == Min(size, |u|) && head == u[..m] && rest == u[m..]
    ensures Tally(u, size, scrapeBatch) == BatchTally(m, scrapeBatch(head)).Plus(Tally(rest, size, scrapeBatch))
  {
    var bs := Batches(u, size);
    assert bs[0] == u[..m] && bs[1..] == Batches(u[m..], size);
  }

  /** The counters of the batch loop from position i on, batch after batch. */
  function TallyAt(urls: seq<string>, i: nat, size: nat, scrapeBatch: seq<string> -> BatchAnswer): Counts
    requires size > 0 && i <= |urls|
    decreases |urls| - i
  {
    if i == |urls| then Zero
    else
      var m := Min(size, |urls| - i);
      BatchCounts(urls, i, i + m, scrapeBatch).Plus(TallyAt(urls, i + m, size, scrapeBatch))
  }

  /** Counting from position i is tallying the batches of urls[i:]. */
  lemma {:induction false} TallyAtIsTally(urls: seq<string>, i: nat, size: nat, scrapeBatch: seq<string> -> BatchAnswer)
    requires size > 0 && i <= |urls|
    ensures TallyAt(urls, i, size, scrapeBatch) == Tally(urls[i..], size, scrapeBatch)
    decreases |urls| - i
  {
    if i < |urls| {
      var m := Min(size, |urls| - i);
      TallyAtIsTally(urls, i + m, size, scrapeBatch);
      TallyFrom(urls, i, size, scrapeBatch, m);
    } else {
      assert urls[i..] == [];
    }
  }

  lemma PlusAssoc(a: Counts, b: Counts, c: Counts)
    ensures a.Plus(b).Plus(c) == a.Plus(b.Plus(c))
  {
  }

  /** Adding one batch's counts to the running counts moves the tally
      of what is left past that batch. */
  lemma TallyShift(counts: Counts, c: Counts, urls: seq<string>, i: nat, m: nat, size: nat,
                  scrapeBatch: seq<string> -> BatchAnswer, total: Counts)
    requires size > 0 && i < |urls| && m == Min(size, |urls| - i)
    requires c == BatchCounts(urls, i, i + m, scrapeBatch)
    requires counts.Plus(TallyAt(urls, i, size, scrapeBatch)) == total
    ensures counts.Plus(c).Plus(TallyAt(urls, i + m, size, scrapeBatch)) == total
  {
    PlusAssoc(counts, c, TallyAt(urls, i + m, size, scrapeBatch));
  }

  function TallyAll(bs: seq<seq<string>>, scrapeBatch: seq<string> -> BatchAnswer): Counts
  {
    if bs == [] then Zero else BatchTally(|bs[0]|, scrapeBatch(bs[0])).Plus(TallyAll(bs[1..], scrapeBatch))
  }

  /** The counters of an active store's products. */
  function Tally(urls: seq<string>, size: nat, scrapeBatch: seq<string> -> BatchAnswer): Counts
    requires size > 0
  {
    TallyAll(Batches(urls, size), scrapeBatch)
  }

  /** Every successful result the scraper gives carries a price. */
  ghost predicate PricedAnswers(scrapeBatch: seq<string> -> BatchAnswer)
  {
    forall urls, k :: (scrapeBatch(urls).Scraped? && 0 <= k < |scrapeBatch(urls).results|)
                        ==> Priced(scrapeBatch(urls).results[k])
  }

  /** The scraper answers every batch with one result per URL (or raises). */
  ghost predicate OneResultEach(scrapeBatch: seq<string> -> BatchAnswer)
  {
    forall urls :: scrapeBatch(urls).Scraped? ==> |scrapeBatch(urls).results| == |urls|
  }

  /** Every product of an active store is counted once, as successful or
      failed; none is skipped. */
  lemma {:induction false} TallyAccounts(bs: seq<seq<string>>, scrapeBatch: seq<string> -> BatchAnswer)
    requires OneResultEach(scrapeBatch)
    ensures TallyAll(bs, scrapeBatch).successful + TallyAll(bs, scrapeBatch).failed == |Concat(bs)|
    ensures TallyAll(bs, scrapeBatch).skipped == 0
  {
    if bs != [] {
      TallyAccounts(bs[1..], scrapeBatch);
      var a := scrapeBatch(bs[0]);
      assert a.Scraped? ==> |a.results| == |bs[0]|;
    }
  }

  /** When every batch raises, every product is failed. */
  lemma {:induction false} AllRaisedAllFailed(bs: seq<seq<string>>, scrapeBatch: seq<string> -> BatchAnswer)
    requires forall urls :: scrapeBatch(urls).Raised?
    ensures TallyAll(bs, scrapeBatch) == Counts(0, |Concat(bs)|, 0)
  {
    if bs != [] {
      AllRaisedAllFailed(bs[1..], scrapeBatch);
    }
  }

  /** What process_store_batch returns, from whether the store is active and
      the URLs of its products. */
  function StoreOutcome(active: bool, urls: seq<string>, size: int, scrapeBatch: seq<string> -> BatchAnswer): Counts
  {
    if !active then Counts(0, 0, |urls|)
    else if size > 0 then Tally(urls, size, scrapeBatch)
    else Zero
  }

  /** For a well-behaved scraper and a positive batch size, a store's counts
      add up to its number of products. */
  lemma StoreOutcomeAccounts(active: bool, urls: seq<string>, size: int, scrapeBatch: seq<string> -> BatchAnswer)
    requires size > 0 && OneResultEach(scrapeBatch)
    ensures StoreOutcome(active, urls, size, scrapeBatch).Sum() == |urls|
    ensures active ==> StoreOutcome(active, urls, size, scrapeBatch).skipped == 0
    ensures !active ==> StoreOutcome(active, urls, size, scrapeBatch) == Counts(0, 0, |urls|)
  {
    if active {
      TallyAccounts(Batches(urls, size), scrapeBatch);
      BatchesCover(urls, size);
    }
  }

  /** The scrape logs of pairing the first n results with the products
      whose ids are given, in order. */
  function Logged(ids: seq<int>, rs: seq<E.ScrapeResult>, n: nat, now: real): (ls: seq<M.ScrapeLog>)
    requires n <= |ids| && n <= |rs|
    ensures |ls| == n && forall k {:trigger ls[k]} :: 0 <= k < n ==> ls[k] == LogOf(ids[k], rs[k], now)
  {
    if n == 0 then [] else Logged(ids, rs, n - 1, now) + [LogOf(ids[n - 1], rs[n - 1], now)]
  }

  /** The scrape logs one batch writes: none when the scrape raised, else
      one per product of the common prefix zip walks before it stops. */
  function BatchLogs(ids: seq<int>, answer: BatchAnswer, now: real): seq<M.ScrapeLog>
  {
    match answer
    case Raised(_) => []
    case Scraped(rs) => Logged(ids, rs, Min(|rs|, |ids|), now)
  }

  /** The scrape logs of an active store's batch loop from position i on,
      batch after batch. */
  function RunLogs(ids: seq<int>, urls: seq<string>, i: nat, size: nat, scrapeBatch: seq<string> -> BatchAnswer,
                   now: real): seq<M.ScrapeLog>
    requires size > 0 && |ids| == |urls| && i <= |urls|
    decreases |urls| - i
  {
    if i == |urls| then []
    else
      var m := Min(size, |urls| - i);
      BatchLogs(ids[i..i + m], scrapeBatch(urls[i..i + m]), now) + RunLogs(ids, urls, i + m, size, scrapeBatch, now)
  }

  /** One turn of the batch loop keeps the logs written so far plus the
      logs still to come equal to the whole run's logs. */
  lemma LogsStep(whole: seq<M.ScrapeLog>, before: seq<M.ScrapeLog>, after: seq<M.ScrapeLog>,
                 ids: seq<int>, urls: seq<string>, i: nat, size: nat, scrapeBatch: seq<string> -> BatchAnswer,
                 m: nat, now: real)
    requires size > 0 && |ids| == |urls| && i < |urls| && m == Min(size, |urls| - i)
    requires whole == before + RunLogs(ids, urls, i, size, scrapeBatch, now)
    requires after == before + BatchLogs(ids[i..i + m], scrapeBatch(urls[i..i + m]), now)
    ensures whole == after + RunLogs(ids, urls, i + m, size, scrapeBatch, now)
  {
    var b := BatchLogs(ids[i..i + m], scrapeBatch(urls[i..i + m]), now);
    var rest := RunLogs(ids, urls, i + m, size, scrapeBatch, now);
    RunLogsUnfold(ids, urls, i, size, scrapeBatch, now);
    LogsAssoc(before, b, rest);
  }

  lemma LogsAssoc(a: seq<M.ScrapeLog>, b: seq<M.ScrapeLog>, c: seq<M.ScrapeLog>)
    ensures a + (b + c) == (a + b) + c
  {
  }

  /** The product id of each log, in order. */
  function LogIds(ls: seq<M.ScrapeLog>): (r: seq<int>)
    ensures |r| == |ls| && forall k {:trigger r[k]} :: 0 <= k < |ls| ==> r[k] == ls[k].productId
  {
    seq(|ls|, k requires 0 <= k < |ls| => ls[k].productId)
  }

  lemma LogIdsAppend(a: seq<M.ScrapeLog>, b: seq<M.ScrapeLog>)
    ensures LogIds(a + b) == LogIds(a) + LogIds(b)
  {
    assert forall k :: 0 <= k < |a + b| ==> LogIds(a + b)[k] == (LogIds(a) + LogIds(b))[k];
  }

  /** When the scraper never raises and answers each batch with one result
      per URL, an active store's run writes exactly one log per product, in
      product order, each with that product's id. */
  lemma OneLogPerProduct(ids: seq<int>, urls: seq<string>, i: nat, size: nat,
                         scrapeBatch: seq<string> -> BatchAnswer, now: real)
    requires size > 0 && |ids| == |urls| && i <= |urls| && OneResultEach(scrapeBatch)
    requires forall u :: scrapeBatch(u).Scraped?
    ensures LogIds(RunLogs(ids, urls, i, size, scrapeBatch, now)) == ids[i..]
  {
    AnsweredAll(urls, i, size, scrapeBatch);
    LogIdsFrom(ids, urls, i, size, scrapeBatch, now);
  }

  /** Every batch of the run from position i on is answered with one
      result per URL. */
  ghost predicate AnsweredFrom(urls: seq<string>, i: nat, size: nat, scrapeBatch: seq<string> -> BatchAnswer)
    requires size > 0 && i <= |urls|
    decreases |urls| - i
  {
    i == |urls| ||
    var m := Min(size, |urls| - i);
    scrapeBatch(urls[i..i + m]).Scraped? && |scrapeBatch(urls[i..i + m]).results| == m
    && AnsweredFrom(urls, i + m, size, scrapeBatch)
  }

  lemma {:induction false} AnsweredAll(urls: seq<string>, i: nat, size: nat, scrapeBatch: seq<string> -> BatchAnswer)
    requires size > 0 && i <= |urls| && OneResultEach(scrapeBatch)
    requires forall u :: scrapeBatch(u).Scraped?
    ensures AnsweredFrom(urls, i, size, scrapeBatch)
    decreases |urls| - i
  {
    if i < |urls| {
      AnsweredAll(urls, i + Min(size, |urls| - i), size, scrapeBatch);
    }
  }

  lemma {:induction false} LogIdsFrom(ids: seq<int>, urls: seq<string>, i: nat, size: nat,
                                      scrapeBatch: seq<string> -> BatchAnswer, now: real)
    requires size > 0 && |ids| == |urls| && i <= |urls| && AnsweredFrom(urls, i, size, scrapeBatch)
    ensures LogIds(RunLogs(ids, urls, i, size, scrapeBatch, now)) == ids[i..]
    decreases |urls| - i
  {
    if i < |urls| {
      var m := Min(size, |urls| - i);
      LogIdsFrom(ids, urls, i + m, size, scrapeBatch, now);
      RunLogIdsStep(ids, urls, i, size, scrapeBatch, now);
      SliceJoin(ids, i, i + m);
    }
  }

  lemma SliceJoin(s: seq<int>, i: nat, j: nat)
    requires i <= j <= |s|
    ensures s[i..j] + s[j..] == s[i..]
  {
  }

  /** One batch of the run logs its own products, then the rest follow. */
  lemma RunLogIdsStep(ids: seq<int>, urls: seq<string>, i: nat, size: nat,
                      scrapeBatch: seq<string> -> BatchAnswer, now: real)
    requires size > 0 && |ids| == |urls| && i < |urls|
    requires var m := Min(size, |urls| - i);
             scrapeBatch(urls[i..i + m]).Scraped? && |scrapeBatch(urls[i..i + m]).results| == m
    ensures var m := Min(size, |urls| - i);
            LogIds(RunLogs(ids, urls, i, size, scrapeBatch, now))
            == ids[i..i + m] + LogIds(RunLogs(ids, urls, i + m, size, scrapeBatch, now))
  {
    var m := Min(size, |urls| - i);
    var a := scrapeBatch(urls[i..i + m]);
    var head: seq<M.ScrapeLog> := BatchLogs(ids[i..i + m], a, now);
    var rest: seq<M.ScrapeLog> := RunLogs(ids, urls, i + m, size, scrapeBatch, now);
    HeadLogs(ids[i..i + m], a, now);
    RunLogsUnfold(ids, urls, i, size, scrapeBatch, now);
    LogIdsAppend(head, rest);
  }

  /** The logs of a run from position i on, one batch then the rest. */
  lemma RunLogsUnfold(ids: seq<int>, urls: seq<string>, i: nat, size: nat,
                      scrapeBatch: seq<string> -> BatchAnswer, now: real)
    requires size > 0 && |ids| == |urls| && i < |urls|
    ensures var m := Min(size, |urls| - i);
            RunLogs(ids, urls, i, size, scrapeBatch, now)
            == BatchLogs(ids[i..i + m], scrapeBatch(urls[i..i + m]), now) + RunLogs(ids, urls, i + m, size, scrapeBatch, now)
  {
  }

  /** A batch answered with one result per product logs each product of
      the batch, in order. */
  lemma HeadLogs(ids: seq<int>, a: BatchAnswer, now: real)
    requires a.Scraped? && |a.results| == |ids|
    ensures LogIds(BatchLogs(ids, a, now)) == ids
  {
  }

  /** The fields of a product the batch run must not change. */
  function Key(p: M.Product): (int, string, string)
    reads p
  {
    (p.id, p.url, p.storeDomain)
  }

  function Ids(products: seq<M.Product>): (r: seq<int>)
    reads products
    ensures |r| == |products| && forall i :: 0 <= i < |products| ==> r[i] == products[i].id
  {
    seq(|products|, i reads products requires 0 <= i < |products| => products[i].id)
  }

  function Urls(products: seq<M.Product>): (r: seq<string>)
    reads products
    ensures |r| == |products| && forall i :: 0 <= i < |products| ==> r[i] == products[i].url
  {
    seq(|products|, i reads products requires 0 <= i < |products| => products[i].url)
  }

  function Doms(products: seq<M.Product>): (r: seq<string>)
    reads products
    ensures |r| == |products| && forall i :: 0 <= i < |products| ==> r[i] == products[i].storeDomain
  {
    seq(|products|, i reads products requires 0 <= i < |products| => products[i].storeDomain)
  }

  /** The domain and active flag of every store, in table order. */
  function Flags(stores: seq<M.Store>): (r: seq<(string, bool)>)
    reads stores
    ensures |r| == |stores| && forall i :: 0 <= i < |stores| ==> r[i] == (stores[i].domain, stores[i].isActive)
  {
    seq(|stores|, i reads stores requires 0 <= i < |stores| => (stores[i].domain, stores[i].isActive))
  }

  /** The active flag of the store with the given domain; false when there
      is none. */
  function FlagOf(flags: seq<(string, bool)>, domain: string): bool
  {
    if flags == [] then false
    else if flags[0].0 == domain then flags[0].1
    else FlagOf(flags[1..], domain)
  }

  /** An active flag belongs to a store carrying the domain. */
  lemma {:induction false} FlagFound(flags: seq<(string, bool)>, domain: string)
    requires FlagOf(flags, domain)
    ensures exists k :: 0 <= k < |flags| && flags[k].0 == domain
  {
    if flags[0].0 != domain {
      FlagFound(flags[1..], domain);
      var k :| 0 <= k < |flags[1..]| && flags[1..][k].0 == domain;
      assert flags[k + 1].0 == domain;
    }
  }

  /** session.get(Store, domain) finds a store and it is active. */
  predicate ActiveIn(stores: seq<M.Store>, domain: string)
    reads stores
  {
    FlagOf(Flags(stores), domain)
  }

  // ---------------------------------------------------------------
  // Grouping
  // ---------------------------------------------------------------

  /** The distinct keys in order of first appearance (the key order of the
      by_store dict). */
  function Order(keys: seq<string>): (r: seq<string>)
    ensures forall i, j :: 0 <= i < j < |r| ==> r[i] != r[j]
    ensures forall d :: d in r <==> d in keys
  {
    if keys == [] then []
    else
      var r := Order(keys[..|keys| - 1]);
      var k := keys[|keys| - 1];
      assert forall d :: d in keys <==> d in keys[..|keys| - 1] || d == k;
      if k in r then r else r + [k]
  }

  /** The items whose key is d, in their original order (by_store[d]). */
  function Members<T>(items: seq<T>, keys: seq<string>, d: string): (r: seq<T>)
    requires |items| == |keys|
    ensures |r| <= |items|
    ensures forall x :: x in r ==> x in items
    ensures (exists i :: 0 <= i < |keys| && keys[i] == d) ==> r != []
    ensures (forall i :: 0 <= i < |keys| ==> keys[i] != d) ==> r == []
  {
    if items == [] then []
    else
      var n := |items| - 1;
      var rest := Members(items[..n], keys[..n], d);
      assert forall i :: 0 <= i < n ==> keys[..n][i] == keys[i];
      if keys[n] == d then rest + [items[n]] else rest
  }

  function Sizes<T>(items: seq<T>, keys: seq<string>, ds: seq<string>): nat
    requires |items| == |keys|
  {
    if ds == [] then 0 else |Members(items, keys, ds[0])| + Sizes(items, keys, ds[1..])
  }

  /** The groups partition the products: every product is in exactly one
      group, so their sizes add up to the number of products. */
  lemma {:induction false} GroupsPartition<T>(items: seq<T>, keys: seq<string>)
    requires |items| == |keys|
    ensures Sizes(items, keys, Order(keys)) == |items|
  {
    if items != [] {
      var n := |items| - 1;
      var pi, pk, x, d := items[..n], keys[..n], items[n], keys[n];
      assert items == pi + [x] && keys == pk + [d];
      GroupsPartition(pi, pk);
      var ds := Order(pk);
      SizesStep(pi, pk, x, d, ds);
      if d !in ds {
        assert Order(keys) == ds + [d];
        SizesAppend(items, keys, ds, d);
        NewKeyAlone(pi, pk, x, d);
      }
    }
  }

  /** An item whose key is new forms a group on its own. */
  lemma NewKeyAlone<T>(items: seq<T>, keys: seq<string>, x: T, d: string)
    requires |items| == |keys| && d !in Order(keys)
    ensures |Members(items + [x], keys + [d], d)| == 1
  {
    var items', keys' := items + [x], keys + [d];
    assert items'[..|items|] == items && keys'[..|keys|] == keys;
    assert forall i :: 0 <= i < |keys| ==> keys[i] != d by {
      forall i | 0 <= i < |keys| ensures keys[i] != d {
        assert keys[i] in keys;
      }
    }
  }

  /** Adding one item of key d grows d's group by one and no other. */
  lemma {:induction false} SizesStep<T>(items: seq<T>, keys: seq<string>, x: T, d: string, ds: seq<string>)
    requires |items| == |keys|
    requires forall i, j :: 0 <= i < j < |ds| ==> ds[i] != ds[j]
    ensures d in ds ==> Sizes(items + [x], keys + [d], ds) == Sizes(items, keys, ds) + 1
    ensures d !in ds ==> Sizes(items + [x], keys + [d], ds) == Sizes(items, keys, ds)
  {
    var items' := items + [x];
    var keys' := keys + [d];
    assert items'[..|items|] == items && keys'[..|keys|] == keys;
    if ds != [] {
      SizesStep(items, keys, x, d, ds[1..]);
    }
  }

  lemma {:induction false} SizesAppend<T>(items: seq<T>, keys: seq<string>, ds: seq<string>, d: string)
    requires |items| == |keys|
    ensures Sizes(items, keys, ds + [d]) == Sizes(items, keys, ds) + |Members(items, keys, d)|
  {
    if ds != [] {
      assert (ds + [d])[1..] == ds[1..] + [d];
      SizesAppend(items, keys, ds[1..], d);
    }
  }

  /** _group_by_store. */
  method GroupByStore(products: seq<M.Product>) returns (order: seq<string>, groups: map<string, seq<M.Product>>)
    ensures order == Order(Doms(products))
    ensures groups.Keys == set d | d in order
    ensures forall d :: d in groups ==> groups[d] == Members(products, Doms(products), d)
  {
    var keys := Doms(products);
    order := [];
    groups := map[];
    for i := 0 to |products|
      invariant order == Order(keys[..i])
      invariant groups.Keys == set d | d in order
      invariant forall d :: d in groups ==> groups[d] == Members(products[..i], keys[..i], d)
    {
      assert keys[..i + 1] == keys[..i] + [keys[i]] && products[..i + 1] == products[..i] + [products[i]];
      order, groups := GroupOne(products[..i], keys[..i], order, groups, products[i], keys[i]);
    }
    assert keys[..|products|] == keys && products[..|products|] == products;
  }

  /** One step of _group_by_store: the item x of key d joins its group,
      which is opened (and its key appended to the order) when d is new. */
  method GroupOne<T>(items: seq<T>, keys: seq<string>, order: seq<string>, groups: map<string, seq<T>>, x: T, d: string)
    returns (order': seq<string>, groups': map<string, seq<T>>)
    requires |items| == |keys|
    requires order == Order(keys)
    requires groups.Keys == set e | e in order
    requires forall e :: e in groups ==> groups[e] == Members(items, keys, e)
    ensures order' == Order(keys + [d])
    ensures groups'.Keys == set e | e in order'
    ensures forall e :: e in groups' ==> groups'[e] == Members(items + [x], keys + [d], e)
  {
    var items', keys' := items + [x], keys + [d];
    assert items'[..|items|] == items && keys'[..|keys|] == keys;
    order', groups' := order, groups;
    if d !in groups {
      assert forall j :: 0 <= j < |keys| ==> keys[j] != d by {
        forall j | 0 <= j < |keys| ensures keys[j] != d {
          assert keys[j] in keys;
        }
      }
      order' := order + [d];
      groups' := groups[d := []];
    }
    groups' := groups'[d := groups'[d] + [x]];
  }

  // ---------------------------------------------------------------
  // The processor
  // ---------------------------------------------------------------

  datatype Summary = Summary(total: nat, successful: nat, failed: nat, skipped: nat, byStore: map<string, Counts>)

  /** The sum of the stores' counts, in key order. */
  function Totals(order: seq<string>, byStore: map<string, Counts>): Counts
  {
    if order == [] then Zero
    else (if order[0] in byStore then byStore[order[0]] else Zero).Plus(Totals(order[1..], byStore))
  }

  class BatchProcessor {
    const batchSize: int
    const interBatchDelay: real
    const health: H.StoreHealthCalculator

    /** range(0, n, 0) raises, so the batch size is never zero. */
    constructor(batchSize: int, interBatchDelay: real, health: H.StoreHealthCalculator)
      requires batchSize != 0
      ensures this.batchSize == batchSize && this.interBatchDelay == interBatchDelay && this.health == health
    {
      this.batchSize := batchSize;
      this.interBatchDelay := interBatchDelay;
      this.health := health;
    }

    /** process_store_batch. */
    method ProcessStoreBatch(session: Session, stores: seq<M.Store>, domain: string, products: seq<M.Product>,
                             scrapeBatch: seq<string> -> BatchAnswer, now: real)
      returns (counts: Counts)
      requires PricedAnswers(scrapeBatch)
      modifies session, stores, set p | p in products
      ensures counts == StoreOutcome(old(ActiveIn(stores, domain)), old(Urls(products)), batchSize, scrapeBatch)
      ensures old(ActiveIn(stores, domain)) && batchSize > 0 ==>
                session.scrapeLogs == old(session.scrapeLogs) + RunLogs(old(Ids(products)), old(Urls(products)), 0, batchSize, scrapeBatch, now)
      ensures old(ActiveIn(stores, domain)) && batchSize <= 0 ==> session.scrapeLogs == old(session.scrapeLogs)
      ensures old(ActiveIn(stores, domain)) ==>
                old(H.Lookup(stores, domain)).Some? && old(H.Lookup(stores, domain)).value.lastSuccessAt == Some(now)
      ensures forall p :: p in products ==> p.url == old(p.url) && p.storeDomain == old(p.storeDomain)
      ensures Flags(stores) == old(Flags(stores))
      ensures !old(ActiveIn(stores, domain)) ==>
                && session.scrapeLogs == old(session.scrapeLogs)
                && session.priceHistory == old(session.priceHistory)
                && forall p :: p in products ==> p.consecutiveFailures == old(p.consecutiveFailures)
    {
      if !ActiveIn(stores, domain) {
        return Counts(0, 0, |products|);
      }
      counts := ProcessActiveStore(session, stores, domain, products, scrapeBatch, now);
    }

    /** process_store_batch for an active store: the batches scraped, then
        the store's success recorded. */
    method ProcessActiveStore(session: Session, stores: seq<M.Store>, domain: string, products: seq<M.Product>,
                              scrapeBatch: seq<string> -> BatchAnswer, now: real)
      returns (counts: Counts)
      requires PricedAnswers(scrapeBatch) && ActiveIn(stores, domain)
      modifies session, stores, set p | p in products
      ensures counts == StoreOutcome(true, old(Urls(products)), batchSize, scrapeBatch)
      ensures batchSize > 0 ==>
                session.scrapeLogs == old(session.scrapeLogs) + RunLogs(old(Ids(products)), old(Urls(products)), 0, batchSize, scrapeBatch, now)
      ensures batchSize <= 0 ==> session.scrapeLogs == old(session.scrapeLogs)
      ensures old(H.Lookup(stores, domain)).Some? && old(H.Lookup(stores, domain)).value.lastSuccessAt == Some(now)
      ensures forall p :: p in products ==> p.url == old(p.url) && p.storeDomain == old(p.storeDomain)
      ensures Flags(stores) == old(Flags(stores))
    {
      FlagFound(Flags(stores), domain);
      ghost var k :| 0 <= k < |stores| && Flags(stores)[k].0 == domain;
      assert stores[k].domain == domain;
      counts := Zero;
      if batchSize > 0 {
        counts := RunBatches(session, products, scrapeBatch, now, stores, domain);
      }
      RecordSuccess(stores, domain, now, session, products);
    }

    /** record_scrape_success of the store's domain; the session's logs and
        the products are not touched. */
    method RecordSuccess(stores: seq<M.Store>, domain: string, now: real, ghost session: Session, ghost products: seq<M.Product>)
      modifies stores
      ensures old(H.Lookup(stores, domain)).Some? ==> old(H.Lookup(stores, domain)).value.lastSuccessAt == Some(now)
      ensures Flags(stores) == old(Flags(stores))
      ensures session.scrapeLogs == old(session.scrapeLogs)
      ensures forall p :: p in products ==> p.url == old(p.url) && p.storeDomain == old(p.storeDomain)
    {
      health.RecordScrapeSuccess(stores, domain, now);
    }

    /** The batch loop of process_store_batch. */
    method RunBatches(session: Session, products: seq<M.Product>, scrapeBatch: seq<string> -> BatchAnswer, now: real,
                      ghost stores: seq<M.Store>, ghost domain: string)
      returns (counts: Counts)
      requires batchSize > 0 && PricedAnswers(scrapeBatch)
      modifies session, set p | p in products
      ensures counts == Tally(old(Urls(products)), batchSize, scrapeBatch)
      ensures session.scrapeLogs == old(session.scrapeLogs) + RunLogs(old(Ids(products)), old(Urls(products)), 0, batchSize, scrapeBatch, now)
      ensures forall p :: p in products ==> p.id == old(p.id) && p.url == old(p.url) && p.storeDomain == old(p.storeDomain)
      ensures Flags(stores) == old(Flags(stores)) && H.Lookup(stores, domain) == old(H.Lookup(stores, domain))
    {
      counts := RunUrls(session, products, Urls(products), scrapeBatch, now);
    }

    /** The batch loop over the products' URLs. */
    method RunUrls(session: Session, products: seq<M.Product>, urls: seq<string>,
                   scrapeBatch: seq<string> -> BatchAnswer, now: real)
      returns (counts: Counts)
      requires batchSize > 0 && PricedAnswers(scrapeBatch) && |urls| == |products|
      modifies session, set p | p in products
      ensures counts == Tally(urls, batchSize, scrapeBatch)
      ensures session.scrapeLogs == old(session.scrapeLogs) + RunLogs(old(Ids(products)), urls, 0, batchSize, scrapeBatch, now)
      ensures forall p :: p in products ==> p.id == old(p.id) && p.url == old(p.url) && p.storeDomain == old(p.storeDomain)
    {
      ghost var ids := Ids(products);
      ghost var whole := session.scrapeLogs + RunLogs(ids, urls, 0, batchSize, scrapeBatch, now);
      ghost var total := TallyAt(urls, 0, batchSize, scrapeBatch);
      assert urls[0..] == urls;
      counts := Zero;
      var i := 0;
      while i < |urls|
        invariant 0 <= i <= |urls|
        invariant counts.Plus(TallyAt(urls, i, batchSize, scrapeBatch)) == total
        invariant whole == session.scrapeLogs + RunLogs(ids, urls, i, batchSize, scrapeBatch, now)
        invariant Ids(products) == ids
        invariant forall p :: p in products ==> p.id == old(p.id) && p.url == old(p.url) && p.storeDomain == old(p.storeDomain)
        decreases |urls| - i
      {
        counts, i := UrlsStep(session, products, urls, i, scrapeBatch, now, ids, whole, total, counts);
      }
      TallyAtIsTally(urls, 0, batchSize, scrapeBatch);
    }

    /** One turn of the batch loop: the batch at i is run, its counts join
        the running counts and its logs the session's. */
    method UrlsStep(session: Session, products: seq<M.Product>, urls: seq<string>, i: nat,
                    scrapeBatch: seq<string> -> BatchAnswer, now: real,
                    ghost ids: seq<int>, ghost whole: seq<M.ScrapeLog>, ghost total: Counts, counts: Counts)
      returns (counts': Counts, i': nat)
      requires batchSize > 0 && PricedAnswers(scrapeBatch) && |urls| == |products| && i < |urls|
      requires Ids(products) == ids
      requires counts.Plus(TallyAt(urls, i, batchSize, scrapeBatch)) == total
      requires whole == session.scrapeLogs + RunLogs(ids, urls, i, batchSize, scrapeBatch, now)
      modifies session, set p | p in products
      ensures i < i' <= |urls|
      ensures counts'.Plus(TallyAt(urls, i', batchSize, scrapeBatch)) == total
      ensures whole == session.scrapeLogs + RunLogs(ids, urls, i', batchSize, scrapeBatch, now)
      ensures Ids(products) == ids
      ensures forall p :: p in products ==> p.id == old(p.id) && p.url == old(p.url) && p.storeDomain == old(p.storeDomain)
    {
      var m := Min(batchSize, |urls| - i);
      var c := RunSlice(session, products, urls, i, i + m, scrapeBatch, now, ids);
      TallyShift(counts, c, urls, i, m, batchSize, scrapeBatch, total);
      LogsStep(whole, old(session.scrapeLogs), session.scrapeLogs, ids, urls, i, batchSize, scrapeBatch, m, now);
      counts' := counts.Plus(c);
      i' := i + m;
    }

    /** The batch products[lo:hi] of process_store_batch. */
    method RunSlice(session: Session, products: seq<M.Product>, urls: seq<string>, lo: nat, hi: nat,
                    scrapeBatch: seq<string> -> BatchAnswer, now: real, ghost ids: seq<int>)
      returns (c: Counts)
      requires lo <= hi <= |products| == |urls| && PricedAnswers(scrapeBatch)
      requires Ids(products) == ids
      modifies session, set p | p in products
      ensures c == BatchCounts(urls, lo, hi, scrapeBatch)
      ensures session.scrapeLogs == old(session.scrapeLogs) + BatchLogs(ids[lo..hi], scrapeBatch(urls[lo..hi]), now)
      ensures forall p :: p in products ==> p.id == old(p.id) && p.url == old(p.url) && p.storeDomain == old(p.storeDomain)
      ensures Ids(products) == ids
    {
      assert Ids(products[lo..hi]) == Ids(products)[lo..hi];
      c := RunBatch(session, products[lo..hi], scrapeBatch(urls[lo..hi]), now);
    }

    /** process_products: the stores in order of first appearance, each
        with its products; the summary adds the stores' counters up. */
    method ProcessProducts(session: Session, products: seq<M.Product>, stores: seq<M.Store>,
                           scrapeBatch: seq<string> -> BatchAnswer, now: real)
      returns (summary: Summary)
      requires PricedAnswers(scrapeBatch)
      modifies session, stores, set p | p in products
      ensures products == [] ==> summary == Summary(0, 0, 0, 0, map[])
      ensures summary.total == |products|
      ensures var order := Order(old(Doms(products)));
              && summary.byStore.Keys == (set d | d in order)
              && (forall d :: d in summary.byStore ==>
                    summary.byStore[d] == StoreOutcome(old(ActiveIn(stores, d)),
                                                       old(Urls(Members(products, Doms(products), d))),
                                                       batchSize, scrapeBatch))
              && Counts(summary.successful, summary.failed, summary.skipped) == Totals(order, summary.byStore)
      ensures batchSize > 0 && OneResultEach(scrapeBatch) ==>
                summary.successful + summary.failed + summary.skipped == summary.total
    {
      if products == [] {
        return Summary(0, 0, 0, 0, map[]);
      }
      ghost var keys := Doms(products);
      ghost var flags := Flags(stores);
      var order, groups := GroupByStore(products);
      ghost var urls := map d | d in groups :: Urls(groups[d]);
      var byStore, totals := RunStores(session, products, stores, order, groups, scrapeBatch, now, flags, urls);
      summary := Summary(|products|, totals.successful, totals.failed, totals.skipped, byStore);
      forall d | d in byStore
        ensures byStore[d] == StoreOutcome(old(ActiveIn(stores, d)), old(Urls(Members(products, Doms(products), d))),
                                           batchSize, scrapeBatch)
      {
        assert Members(products, keys, d) == groups[d];
        assert old(Urls(groups[d])) == urls[d];
      }
      if batchSize > 0 && OneResultEach(scrapeBatch) {
        SummaryAccounts(products, keys, order, groups, byStore, totals, flags, urls, batchSize, scrapeBatch);
      }
    }

    /** The totals of process_products account for every product. */
    lemma SummaryAccounts(products: seq<M.Product>, keys: seq<string>, order: seq<string>,
                          groups: map<string, seq<M.Product>>, byStore: map<string, Counts>, totals: Counts,
                          flags: seq<(string, bool)>, urls: map<string, seq<string>>, size: int,
                          scrapeBatch: seq<string> -> BatchAnswer)
      requires |keys| == |products| && size > 0 && OneResultEach(scrapeBatch)
      requires order == Order(keys) && groups.Keys == set d | d in order
      requires forall d :: d in groups ==> groups[d] == Members(products, keys, d)
      requires urls.Keys == groups.Keys && forall d :: d in groups ==> |urls[d]| == |groups[d]|
      requires byStore.Keys == groups.Keys
      requires forall d :: d in byStore ==> byStore[d] == StoreOutcome(FlagOf(flags, d), urls[d], size, scrapeBatch)
      requires totals == Totals(order, byStore)
      ensures totals.Sum() == |products|
    {
      StoresAccount(products, keys, byStore, flags, urls, size, scrapeBatch);
    }

    /** What process_store_batch gives for each store. */
    ghost function ExpectedOutcomes(groups: map<string, seq<M.Product>>, flags: seq<(string, bool)>,
                                    urls: map<string, seq<string>>, scrapeBatch: seq<string> -> BatchAnswer)
      : (m: map<string, Counts>)
      requires urls.Keys == groups.Keys
      reads this
      ensures m.Keys == groups.Keys
      ensures forall d :: d in m ==> m[d] == StoreOutcome(FlagOf(flags, d), urls[d], batchSize, scrapeBatch)
    {
      map d | d in groups :: StoreOutcome(FlagOf(flags, d), urls[d], batchSize, scrapeBatch)
    }

    /** The store loop of process_products. */
    method RunStores(session: Session, products: seq<M.Product>, stores: seq<M.Store>, order: seq<string>,
                     groups: map<string, seq<M.Product>>, scrapeBatch: seq<string> -> BatchAnswer, now: real,
                     ghost flags: seq<(string, bool)>, ghost urls: map<string, seq<string>>)
      returns (byStore: map<string, Counts>, totals: Counts)
      requires PricedAnswers(scrapeBatch)
      requires forall i, j :: 0 <= i < j < |order| ==> order[i] != order[j]
      requires groups.Keys == set d | d in order
      requires forall d, p :: d in groups && p in groups[d] ==> p in products
      requires Flags(stores) == flags
      requires urls.Keys == groups.Keys && forall d :: d in groups ==> Urls(groups[d]) == urls[d]
      modifies session, stores, set p | p in products
      ensures byStore.Keys == groups.Keys
      ensures forall d :: d in byStore ==> byStore[d] == StoreOutcome(FlagOf(flags, d), urls[d], batchSize, scrapeBatch)
      ensures totals == Totals(order, byStore)
    {
      totals := Zero;
      byStore := map[];
      ghost var expected := ExpectedOutcomes(groups, flags, urls, scrapeBatch);
      for k := 0 to |order|
        invariant forall d :: d in byStore <==> d in order[..k]
        invariant forall d :: d in byStore ==> byStore[d] == expected[d]
        invariant totals == Totals(order[..k], byStore)
        invariant Flags(stores) == flags
        invariant forall d :: d in groups ==> Urls(groups[d]) == urls[d]
      {
        byStore, totals := AddStore(session, products, stores, order, k, groups, scrapeBatch, now,
                                    flags, urls, expected, byStore, totals);
      }
      assert order[..|order|] == order;
      assert byStore.Keys == groups.Keys;
    }

    /** One store of process_products: its counts join the summary, and
        nothing the later stores depend on changes. */
    method AddStore(session: Session, products: seq<M.Product>, stores: seq<M.Store>, order: seq<string>, k: nat,
                    groups: map<string, seq<M.Product>>, scrapeBatch: seq<string> -> BatchAnswer, now: real,
                    ghost flags: seq<(string, bool)>, ghost urls: map<string, seq<string>>,
                    ghost expected: map<string, Counts>, byStore: map<string, Counts>, totals: Counts)
      returns (byStore': map<string, Counts>, totals': Counts)
      requires PricedAnswers(scrapeBatch)
      requires forall i, j :: 0 <= i < j < |order| ==> order[i] != order[j]
      requires k < |order| && groups.Keys == set d | d in order
      requires forall e, p :: e in groups && p in groups[e] ==> p in products
      requires Flags(stores) == flags
      requires urls.Keys == groups.Keys && forall e :: e in groups ==> Urls(groups[e]) == urls[e]
      requires expected.Keys == groups.Keys
      requires expected[order[k]] == StoreOutcome(FlagOf(flags, order[k]), urls[order[k]], batchSize, scrapeBatch)
      requires forall d :: d in byStore <==> d in order[..k]
      requires forall d :: d in byStore ==> byStore[d] == expected[d]
      requires totals == Totals(order[..k], byStore)
      modifies session, stores, set p | p in products
      ensures forall d :: d in byStore' <==> d in order[..k + 1]
      ensures forall d :: d in byStore' ==> byStore'[d] == expected[d]
      ensures totals' == Totals(order[..k + 1], byStore')
      ensures Flags(stores) == flags
      ensures forall e :: e in groups ==> Urls(groups[e]) == urls[e]
    {
      var d := order[k];
      NotEarlier(order, k);
      var c := ProcessGroup(session, products, stores, groups, d, scrapeBatch, now);
      TotalsStep(order[..k], byStore, d, c);
      byStore' := byStore[d := c];
      totals' := totals.Plus(c);
    }

    /** process_store_batch on one group, which leaves the store flags and
        every group's URLs as they were. */
    method ProcessGroup(session: Session, products: seq<M.Product>, stores: seq<M.Store>,
                        groups: map<string, seq<M.Product>>, d: string, scrapeBatch: seq<string> -> BatchAnswer,
                        now: real)
      returns (c: Counts)
      requires PricedAnswers(scrapeBatch)
      requires d in groups && forall e, p :: e in groups && p in groups[e] ==> p in products
      modifies session, stores, set p | p in products
      ensures c == StoreOutcome(old(ActiveIn(stores, d)), old(Urls(groups[d])), batchSize, scrapeBatch)
      ensures Flags(stores) == old(Flags(stores))
      ensures forall e :: e in groups ==> Urls(groups[e]) == old(Urls(groups[e]))
    {
      c := ProcessStoreBatch(session, stores, d, groups[d], scrapeBatch, now);
      assert Flags(stores) == old(Flags(stores));
      forall e | e in groups
        ensures Urls(groups[e]) == old(Urls(groups[e]))
      {
        assert Urls(groups[e]) == old(Urls(groups[e]));
      }
    }

    /** process_single: a product that is not active is skipped untouched;
        otherwise its scrape result is applied as in a batch: one scrape log,
        and the product refreshed from a success or its failure counted. */
    method ProcessSingle(session: Session, product: M.Product, scrape: string -> E.ScrapeResult, now: real)
      returns (status: Status)
      requires Priced(scrape(product.url))
      modifies session, product
      ensures old(product.status) != M.Active ==>
                status == Skipped && unchanged(product) && unchanged(session)
      ensures old(product.status) == M.Active ==>
                && status == (if Succeeds(scrape(old(product.url))) then Success else Failed)
                && session.scrapeLogs == old(session.scrapeLogs) + [LogOf(product.id, scrape(old(product.url)), now)]
                && product.lastCheckedAt == Some(now) && product.updatedAt == now
                && product.id == old(product.id) && product.url == old(product.url)
      ensures old(product.status) == M.Active && Succeeds(scrape(old(product.url))) ==>
                Refreshed(session, product, scrape(old(product.url)).product.value, now)
      ensures old(product.status) == M.Active && !Succeeds(scrape(old(product.url))) ==>
                && (product.consecutiveFailures, product.status) == AfterFailure(old(product.consecutiveFailures), old(product.status))
                && product.currentPrice == old(product.currentPrice) && session.priceHistory == old(session.priceHistory)
    {
      if product.status != M.Active {
        return Skipped;
      }
      status := ProcessResult(session, product, scrape(product.url), now);
    }

    /** One batch of process_store_batch: pair results with products. A
        raising scrape leaves the session and the products as they were;
        otherwise each product of the common prefix gets its result's scrape
        log, in order, and is marked checked now. */
    method RunBatch(session: Session, batch: seq<M.Product>, answer: BatchAnswer, now: real)
      returns (c: Counts)
      requires answer.Scraped? ==> forall k :: 0 <= k < |answer.results| ==> Priced(answer.results[k])
      modifies session, set p | p in batch
      ensures c == BatchTally(|batch|, answer)
      ensures session.scrapeLogs == old(session.scrapeLogs) + BatchLogs(old(Ids(batch)), answer, now)
      ensures answer.Raised? ==> session.priceHistory == old(session.priceHistory) && forall p :: p in batch ==> unchanged(p)
      ensures answer.Scraped? ==> forall k :: 0 <= k < Min(|answer.results|, |batch|) ==> batch[k].lastCheckedAt == Some(now)
      ensures forall p :: p in batch ==> p.id == old(p.id) && p.url == old(p.url) && p.storeDomain == old(p.storeDomain)
    {
      if answer.Raised? {
        return Counts(0, |batch|, 0);
      }
      var results := answer.results;
      var m := Min(|results|, |batch|);
      var successful := ZipResults(session, batch, results, now);
      var failed := m - successful;
      if |results| != |batch| {
        failed := failed + |batch|;
      }
      c := Counts(successful, failed, 0);
    }

    /** The zip loop of one batch: each product of the common prefix gets
        its result applied and logged, in order. */
    method ZipResults(session: Session, batch: seq<M.Product>, results: seq<E.ScrapeResult>, now: real)
      returns (successful: nat)
      requires forall k :: 0 <= k < |results| ==> Priced(results[k])
      modifies session, set p | p in batch
      ensures successful == Succeeded(results, Min(|results|, |batch|))
      ensures session.scrapeLogs == old(session.scrapeLogs) + Logged(old(Ids(batch)), results, Min(|results|, |batch|), now)
      ensures forall k :: 0 <= k < Min(|results|, |batch|) ==> batch[k].lastCheckedAt == Some(now)
      ensures forall p :: p in batch ==> p.id == old(p.id) && p.url == old(p.url) && p.storeDomain == old(p.storeDomain)
    {
      var m := Min(|results|, |batch|);
      successful := 0;
      ghost var ids := Ids(batch);
      ghost var before := map p | p in batch :: Key(p);
      for j := 0 to m
        invariant successful == Succeeded(results, j)
        invariant session.scrapeLogs == old(session.scrapeLogs) + Logged(ids, results, j, now)
        invariant forall k :: 0 <= k < j ==> batch[k].lastCheckedAt == Some(now)
        invariant forall p :: p in batch ==> p in before && Key(p) == before[p]
      {
        successful := ZipTurn(session, batch, results, j, now, ids, old(session.scrapeLogs), before, successful);
      }
    }

    /** The zip loop's invariant at j gives it at j + 1; `before` holds each
        product's id, URL and store domain before the loop. */
    method ZipTurn(session: Session, batch: seq<M.Product>, results: seq<E.ScrapeResult>, j: nat, now: real,
                   ghost ids: seq<int>, ghost logs: seq<M.ScrapeLog>, ghost before: map<M.Product, (int, string, string)>,
                   successful: nat)
      returns (next: nat)
      requires j < |results| && j < |batch| && ids == Ids(batch)
      requires Priced(results[j])
      requires successful == Succeeded(results, j)
      requires session.scrapeLogs == logs + Logged(ids, results, j, now)
      requires forall k :: 0 <= k < j ==> batch[k].lastCheckedAt == Some(now)
      requires forall p :: p in batch ==> p in before && Key(p) == before[p]
      modifies session, batch[j]
      ensures next == Succeeded(results, j + 1)
      ensures session.scrapeLogs == logs + Logged(ids, results, j + 1, now)
      ensures forall k :: 0 <= k < j + 1 ==> batch[k].lastCheckedAt == Some(now)
      ensures forall p :: p in batch ==> p in before && Key(p) == before[p]
    {
      next := ZipStep(session, batch, results, j, now, ids, logs, successful);
    }

    /** One turn of the zip loop: the j-th product takes the j-th result
        and its log is appended. */
    method ZipStep(session: Session, batch: seq<M.Product>, results: seq<E.ScrapeResult>, j: nat, now: real,
                   ghost ids: seq<int>, ghost logs: seq<M.ScrapeLog>, successful: nat)
      returns (next: nat)
      requires j < |results| && j < |batch| && |ids| == |batch| && batch[j].id == ids[j]
      requires Priced(results[j])
      requires successful == Succeeded(results, j)
      requires session.scrapeLogs == logs + Logged(ids, results, j, now)
      modifies session, batch[j]
      ensures next == Succeeded(results, j + 1)
      ensures session.scrapeLogs == logs + Logged(ids, results, j + 1, now)
      ensures batch[j].lastCheckedAt == Some(now) && batch[j].updatedAt == now
      ensures Key(batch[j]) == old(Key(batch[j]))
      ensures batch[j].upc == old(batch[j].upc) && batch[j].currency == old(batch[j].currency)
      ensures batch[j].canonicalId == old(batch[j].canonicalId) && batch[j].deletedAt == old(batch[j].deletedAt)
      ensures Succeeds(results[j]) ==> Refreshed(session, batch[j], results[j].product.value, now)
      ensures !Succeeds(results[j]) ==>
                && (batch[j].consecutiveFailures, batch[j].status)
                   == AfterFailure(old(batch[j].consecutiveFailures), old(batch[j].status))
                && batch[j].name == old(batch[j].name) && batch[j].brand == old(batch[j].brand)
                && batch[j].imageUrl == old(batch[j].imageUrl) && batch[j].currentPrice == old(batch[j].currentPrice)
                && batch[j].originalPrice == old(batch[j].originalPrice) && batch[j].inStock == old(batch[j].inStock)
                && session.priceHistory == old(session.priceHistory)
    {
      var status := ProcessResult(session, batch[j], results[j], now);
      next := if status == Success then successful + 1 else successful;
    }
  }

  /** With a positive batch size and a well-behaved scraper, the store
      counts of a run add up to the number of products. */
  lemma StoresAccount<T>(items: seq<T>, keys: seq<string>, byStore: map<string, Counts>, flags: seq<(string, bool)>,
                         urls: map<string, seq<string>>, size: int, scrapeBatch: seq<string> -> BatchAnswer)
    requires |items| == |keys| && size > 0 && OneResultEach(scrapeBatch)
    requires forall d :: d in Order(keys) ==>
               && d in byStore && d in urls
               && byStore[d] == StoreOutcome(FlagOf(flags, d), urls[d], size, scrapeBatch)
               && |urls[d]| == |Members(items, keys, d)|
    ensures Totals(Order(keys), byStore).Sum() == |items|
  {
    var order := Order(keys);
    forall d | d in order
      ensures byStore[d].Sum() == |Members(items, keys, d)|
    {
      StoreOutcomeAccounts(FlagOf(flags, d), urls[d], size, scrapeBatch);
    }
    TotalsAccount(items, keys, order, byStore);
    GroupsPartition(items, keys);
  }

  /** The store sums add up to the group sizes when each store accounts
      for its own products. */
  lemma {:induction false} TotalsAccount<T>(items: seq<T>, keys: seq<string>, ds: seq<string>, byStore: map<string, Counts>)
    requires |items| == |keys|
    requires forall d :: d in ds ==> d in byStore && byStore[d].Sum() == |Members(items, keys, d)|
    ensures Totals(ds, byStore).Sum() == Sizes(items, keys, ds)
  {
    if ds != [] {
      TotalsAccount(items, keys, ds[1..], byStore);
    }
  }

  lemma TotalsAppend(ds: seq<string>, d: string, byStore: map<string, Counts>)
    requires d in byStore
    ensures Totals(ds + [d], byStore) == Totals(ds, byStore).Plus(byStore[d])
    decreases |ds|
  {
    if ds != [] {
      assert (ds + [d])[1..] == ds[1..] + [d];
      TotalsAppend(ds[1..], d, byStore);
    }
  }

  lemma NotEarlier(order: seq<string>, k: nat)
    requires forall i, j :: 0 <= i < j < |order| ==> order[i] != order[j]
    requires k < |order|
    ensures order[k] !in order[..k]
    ensures order[..k + 1] == order[..k] + [order[k]]
  {
  }

  /** Adding one store at the end of the order adds its counts. */
  lemma TotalsStep(ds: seq<string>, byStore: map<string, Counts>, d: string, c: Counts)
    requires d !in ds
    ensures Totals(ds + [d], byStore[d := c]) == Totals(ds, byStore).Plus(c)
  {
    TotalsIgnore(ds, byStore, d, c);
    TotalsAppend(ds, d, byStore[d := c]);
  }

  /** Entries outside the key order do not count. */
  lemma TotalsIgnore(ds: seq<string>, byStore: map<string, Counts>, d: string, c: Counts)
    requires d !in ds
    ensures Totals(ds, byStore[d := c]) == Totals(ds, byStore)
    decreases |ds|
  {
    if ds != [] {
      TotalsIgnore(ds[1..], byStore, d, c);
    }
  }
}
