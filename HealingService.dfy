/** The self-healing orchestration (healing/service.py). The service keeps,
    per product, how many regeneration attempts were made, caps them, and
    records each cycle in a report. The database is the two maps a session
    reads (stores by domain, products by id) plus the products in query
    order; the fresh scrape of a product page is an input, succeeded or not. */
module HealingService {
  import opened Common
  import opened JsonValue
  import M = Models
  import D = Detector
  import R = Regenerator

  const DefaultMaxProductsPerRun: int := 10
  const DefaultStoreFailureThreshold: real := 0.5
  const PlaceholderError: string := "Full regeneration requires raw HTML access - placeholder"

  /** HealingAttempt; `newSelectors` is JNull for None. */
  datatype HealingAttempt = HealingAttempt(
    productId: int, domain: string, success: bool, attemptNumber: int,
    error: Option<string>, newSelectors: Json, timestamp: real)

  /** HealingReport, filled in as a cycle runs. */
  class HealingReport {
    var totalProductsChecked: int
    var productsHealed: int
    var productsFailed: int
    var productsFlaggedAttention: int
    var storesUpdated: int
    var attempts: seq<HealingAttempt>

    constructor()
      ensures totalProductsChecked == 0 && productsHealed == 0 && productsFailed == 0
      ensures productsFlaggedAttention == 0 && storesUpdated == 0 && attempts == []
    {
      totalProductsChecked := 0;
      productsHealed := 0;
      productsFailed := 0;
      productsFlaggedAttention := 0;
      storesUpdated := 0;
      attempts := [];
    }

    /** No counter of products exceeds the bound. */
    predicate Bounded(bound: nat)
      reads this
    {
      productsHealed <= bound && productsFailed <= bound && productsFlaggedAttention <= bound
    }

    /** Nothing healed, no store updated, every attempt a failure. */
    predicate NoneHealed()
      reads this
    {
      productsHealed == 0 && storesUpdated == 0 && forall k :: 0 <= k < |attempts| ==> !attempts[k].success
    }
  }

  /** _try_regenerate: the placeholder, which never succeeds. */
  function TryRegenerate(domain: string): (r: R.RegenerationResult)
    ensures !r.success && r.domain == domain && r.selectors == JNull
  {
    R.Failed(domain, PlaceholderError)
  }

  /** The analysed products present in the session. */
  function Present(analyses: seq<D.FailureAnalysis>, products: map<int, M.Product>): (n: nat)
    ensures n <= |analyses|
  {
    if analyses == [] then 0
    else Present(analyses[..|analyses| - 1], products) + (if analyses[|analyses| - 1].productId in products then 1 else 0)
  }

  /** The attempt number of a product: one more than the attempts made. */
  function AttemptNumber(attempts: map<int, nat>, productId: int): (n: nat)
    ensures n >= 1
  {
    GetOr(attempts, productId, 0) + 1
  }

  /** map.get for counters. */
  function GetOr(m: map<int, nat>, k: int, default: nat): (r: nat)
    ensures k in m ==> r == m[k]
    ensures k !in m ==> r == default
  {
    if k in m then m[k] else default
  }

  /** _flag_for_attention. */
  method FlagForAttention(p: M.Product, now: real)
    modifies p
    ensures p.status == M.NeedsAttention && p.updatedAt == now
    ensures M.Details(p) == old(M.Details(p)) && p.consecutiveFailures == old(p.consecutiveFailures)
    ensures p.deletedAt == old(p.deletedAt) && p.lastCheckedAt == old(p.lastCheckedAt)
  {
    p.status := M.NeedsAttention;
    p.updatedAt := now;
  }

  /** The loop that flags every analysed product the session has. */
  method FlagAll(analyses: seq<D.FailureAnalysis>, products: map<int, M.Product>, report: HealingReport, now: real)
    modifies products.Values, report
    ensures forall k :: 0 <= k < |analyses| && analyses[k].productId in products
              ==> products[analyses[k].productId].status == M.NeedsAttention
    ensures report.productsFlaggedAttention == old(report.productsFlaggedAttention) + Present(analyses, products)
    ensures report.totalProductsChecked == old(report.totalProductsChecked) && report.productsHealed == old(report.productsHealed)
    ensures report.productsFailed == old(report.productsFailed) && report.storesUpdated == old(report.storesUpdated)
    ensures report.attempts == old(report.attempts)
  {
    for i := 0 to |analyses|
      invariant forall k :: 0 <= k < i && analyses[k].productId in products
                  ==> products[analyses[k].productId].status == M.NeedsAttention
      invariant report.productsFlaggedAttention == old(report.productsFlaggedAttention) + Present(analyses[..i], products)
      invariant report.totalProductsChecked == old(report.totalProductsChecked) && report.productsHealed == old(report.productsHealed)
      invariant report.productsFailed == old(report.productsFailed) && report.storesUpdated == old(report.storesUpdated)
      invariant report.attempts == old(report.attempts)
    {
      assert analyses[..i + 1][..i] == analyses[..i];
      var id := analyses[i].productId;
      if id in products {
        FlagForAttention(products[id], now);
        report.productsFlaggedAttention := report.productsFlaggedAttention + 1;
      }
    }
    assert analyses[..|analyses|] == analyses;
  }

  /** A product after record_success: no failures, checked now, and
      neither in error nor flagged for attention. */
  predicate Reset(p: M.Product, now: real)
    reads p
  {
    p.consecutiveFailures == 0 && p.lastCheckedAt == Some(now) && p.updatedAt == now
    && p.status != M.ErrorStatus && p.status != M.NeedsAttention
  }

  /** The loop that records a success for every analysed product. */
  method HealAll(detector: D.FailureDetector, analyses: seq<D.FailureAnalysis>, products: map<int, M.Product>,
                 report: HealingReport, now: real)
    modifies products.Values, report
    ensures forall k :: 0 <= k < |analyses| && analyses[k].productId in products
              ==> Reset(products[analyses[k].productId], now)
    ensures report.productsHealed == old(report.productsHealed) + |analyses|
    ensures report.totalProductsChecked == old(report.totalProductsChecked) && report.productsFailed == old(report.productsFailed)
    ensures report.productsFlaggedAttention == old(report.productsFlaggedAttention) && report.storesUpdated == old(report.storesUpdated)
    ensures report.attempts == old(report.attempts)
  {
    for i := 0 to |analyses|
      invariant forall k :: 0 <= k < i && analyses[k].productId in products
                  ==> Reset(products[analyses[k].productId], now)
      invariant report.productsHealed == old(report.productsHealed) + i
      invariant report.totalProductsChecked == old(report.totalProductsChecked) && report.productsFailed == old(report.productsFailed)
      invariant report.productsFlaggedAttention == old(report.productsFlaggedAttention) && report.storesUpdated == old(report.storesUpdated)
      invariant report.attempts == old(report.attempts)
    {
      var id := analyses[i].productId;
      var p: M.Product? := if id in products then products[id] else null;
      detector.RecordSuccess(p, now);
      report.productsHealed := report.productsHealed + 1;
    }
  }

  /** The store domains of the analysed products the session has, each
      once, in the order they first appear (the key order of by_store). */
  function Domains(analyses: seq<D.FailureAnalysis>, domainOf: map<int, string>): (r: seq<string>)
    ensures forall i, j :: 0 <= i < j < |r| ==> r[i] != r[j]
    ensures forall d :: d in r <==> exists k :: 0 <= k < |analyses| && analyses[k].productId in domainOf
                                                 && domainOf[analyses[k].productId] == d
  {
    if analyses == [] then []
    else
      var init := analyses[..|analyses| - 1];
      var a := analyses[|analyses| - 1];
      var r := Domains(init, domainOf);
      assert forall k :: 0 <= k < |init| ==> init[k] == analyses[k];
      if a.productId in domainOf && domainOf[a.productId] !in r then r + [domainOf[a.productId]] else r
  }

  /** The analyses of products of one store, in order (by_store[domain]). */
  function Group(analyses: seq<D.FailureAnalysis>, domainOf: map<int, string>, d: string): (r: seq<D.FailureAnalysis>)
    ensures |r| <= |analyses|
    ensures forall k :: 0 <= k < |r| ==> r[k] in analyses && r[k].productId in domainOf && domainOf[r[k].productId] == d
    ensures forall k :: (0 <= k < |analyses| && analyses[k].productId in domainOf && domainOf[analyses[k].productId] == d)
                          ==> analyses[k] in r
  {
    if analyses == [] then []
    else
      var init := analyses[..|analyses| - 1];
      var a := analyses[|analyses| - 1];
      assert forall k :: 0 <= k < |init| ==> init[k] == analyses[k];
      if a.productId in domainOf && domainOf[a.productId] == d then Group(init, domainOf, d) + [a]
      else Group(init, domainOf, d)
  }

  /** Every store of the grouping has at least one analysis. */
  lemma {:induction false} GroupsNonEmpty(analyses: seq<D.FailureAnalysis>, domainOf: map<int, string>, d: string)
    requires d in Domains(analyses, domainOf)
    ensures Group(analyses, domainOf, d) != []
  {
    var k :| 0 <= k < |analyses| && analyses[k].productId in domainOf && domainOf[analyses[k].productId] == d;
    assert analyses[k] in Group(analyses, domainOf, d);
  }

  /** The groups together hold exactly the analyses whose product the
      session has: their sizes add up to that number. */
  function GroupSizes(analyses: seq<D.FailureAnalysis>, domainOf: map<int, string>, ds: seq<string>): nat
  {
    if ds == [] then 0 else |Group(analyses, domainOf, ds[0])| + GroupSizes(analyses, domainOf, ds[1..])
  }

  /** The analyses whose product the session has. */
  function Known(analyses: seq<D.FailureAnalysis>, domainOf: map<int, string>): (n: nat)
    ensures n <= |analyses|
  {
    if analyses == [] then 0
    else Known(analyses[..|analyses| - 1], domainOf) + (if analyses[|analyses| - 1].productId in domainOf then 1 else 0)
  }

  lemma {:induction false} GroupsPartition(analyses: seq<D.FailureAnalysis>, domainOf: map<int, string>)
    ensures GroupSizes(analyses, domainOf, Domains(analyses, domainOf)) == Known(analyses, domainOf)
  {
    if analyses != [] {
      var init := analyses[..|analyses| - 1];
      var a := analyses[|analyses| - 1];
      assert analyses == init + [a];
      GroupsPartition(init, domainOf);
      var ds := Domains(init, domainOf);
      if a.productId in domainOf {
        var d := domainOf[a.productId];
        SizesStep(init, a, domainOf, ds, d);
        if d !in ds {
          GroupSizesAppend(analyses, domainOf, ds, d);
          GroupEmptyOutside(init, domainOf, d);
        }
      } else {
        SizesSame(init, a, domainOf, ds);
      }
    }
  }

  /** A store outside the grouping has no analyses. */
  lemma {:induction false} GroupEmptyOutside(analyses: seq<D.FailureAnalysis>, domainOf: map<int, string>, d: string)
    requires d !in Domains(analyses, domainOf)
    ensures Group(analyses, domainOf, d) == []
  {
    if analyses != [] {
      var init := analyses[..|analyses| - 1];
      GroupEmptyOutside(init, domainOf, d);
    }
  }

  /** The sizes of one more group of the key order. */
  lemma GroupSizesPrefix(analyses: seq<D.FailureAnalysis>, domainOf: map<int, string>, ds: seq<string>, j: nat)
    requires j < |ds|
    ensures GroupSizes(analyses, domainOf, ds[..j + 1]) == GroupSizes(analyses, domainOf, ds[..j]) + |Group(analyses, domainOf, ds[j])|
  {
    assert ds[..j + 1] == ds[..j] + [ds[j]];
    GroupSizesAppend(analyses, domainOf, ds[..j], ds[j]);
  }

  lemma {:induction false} GroupSizesAppend(analyses: seq<D.FailureAnalysis>, domainOf: map<int, string>, ds: seq<string>, d: string)
    ensures GroupSizes(analyses, domainOf, ds + [d]) == GroupSizes(analyses, domainOf, ds) + |Group(analyses, domainOf, d)|
  {
    if ds != [] {
      assert (ds + [d])[1..] == ds[1..] + [d];
      GroupSizesAppend(analyses, domainOf, ds[1..], d);
    }
  }

  /** Appending an analysis of store d adds one to d's group only. */
  lemma {:induction false} SizesStep(init: seq<D.FailureAnalysis>, a: D.FailureAnalysis, domainOf: map<int, string>,
                                     ds: seq<string>, d: string)
    requires a.productId in domainOf && domainOf[a.productId] == d
    requires forall i, j :: 0 <= i < j < |ds| ==> ds[i] != ds[j]
    ensures d in ds ==> GroupSizes(init + [a], domainOf, ds) == GroupSizes(init, domainOf, ds) + 1
    ensures d !in ds ==> GroupSizes(init + [a], domainOf, ds) == GroupSizes(init, domainOf, ds)
  {
    var all := init + [a];
    assert all[..|all| - 1] == init;
    if ds != [] {
      SizesStep(init, a, domainOf, ds[1..], d);
    }
  }

  /** Appending an analysis the session lacks changes no group. */
  lemma {:induction false} SizesSame(init: seq<D.FailureAnalysis>, a: D.FailureAnalysis, domainOf: map<int, string>,
                                     ds: seq<string>)
    requires a.productId !in domainOf
    ensures GroupSizes(init + [a], domainOf, ds) == GroupSizes(init, domainOf, ds)
  {
    var all := init + [a];
    assert all[..|all| - 1] == init;
    if ds != [] {
      SizesSame(init, a, domainOf, ds[1..]);
    }
  }

  /** The session's products are stored under their own ids. */
  predicate Keyed(products: map<int, M.Product>)
    reads products.Values
  {
    forall k :: k in products ==> products[k].id == k
  }

  /** The store of every product the session has, by id. */
  function DomainOf(products: map<int, M.Product>): (r: map<int, string>)
    reads products.Values
    ensures r.Keys == products.Keys
    ensures forall id :: id in products ==> r[id] == products[id].storeDomain
  {
    map id | id in products :: products[id].storeDomain
  }

  /** The grouping loop of run_healing_cycle: by_store, with its key order. */
  method GroupByStore(analyses: seq<D.FailureAnalysis>, domainOf: map<int, string>)
    returns (order: seq<string>, groups: map<string, seq<D.FailureAnalysis>>)
    ensures order == Domains(analyses, domainOf)
    ensures groups.Keys == set d | d in order
    ensures forall d :: d in groups ==> groups[d] == Group(analyses, domainOf, d)
  {
    order := [];
    groups := map[];
    for i := 0 to |analyses|
      invariant order == Domains(analyses[..i], domainOf)
      invariant groups.Keys == set d | d in order
      invariant forall d :: d in groups ==> groups[d] == Group(analyses[..i], domainOf, d)
    {
      assert analyses[..i + 1][..i] == analyses[..i];
      var id := analyses[i].productId;
      if id in domainOf {
        var d := domainOf[id];
        if d !in groups {
          GroupEmptyOutside(analyses[..i], domainOf, d);
          order := order + [d];
          groups := groups[d := []];
        }
        groups := groups[d := groups[d] + [analyses[i]]];
      }
    }
    assert analyses[..|analyses|] == analyses;
  }

  class SelfHealingService {
    const detector: D.FailureDetector
    const regenerator: R.SelectorRegenerator
    const maxProductsPerRun: nat
    const storeFailureThreshold: real
    /** _healing_attempts: the last attempt number per product id. */
    var healingAttempts: map<int, nat>

    constructor(detector: D.FailureDetector, regenerator: R.SelectorRegenerator,
                maxProductsPerRun: nat, storeFailureThreshold: real)
      ensures this.detector == detector && this.regenerator == regenerator
      ensures this.maxProductsPerRun == maxProductsPerRun && this.storeFailureThreshold == storeFailureThreshold
      ensures healingAttempts == map[]
    {
      this.detector := detector;
      this.regenerator := regenerator;
      this.maxProductsPerRun := maxProductsPerRun;
      this.storeFailureThreshold := storeFailureThreshold;
      healingAttempts := map[];
    }

    /** reset_healing_attempts: one product's counter, or all of them. */
    method ResetHealingAttempts(productId: Option<int>)
      modifies this
      ensures productId.Some? ==> healingAttempts == old(healingAttempts) - {productId.value}
      ensures productId.None? ==> healingAttempts == map[]
    {
      if productId.Some? {
        healingAttempts := healingAttempts - {productId.value};
      } else {
        healingAttempts := map[];
      }
    }

    /** _heal_store_products, given whether the fresh scrape of the first
        product succeeded and what the regeneration gave. */
    method HealStoreProducts(stores: map<string, M.Store>, products: map<int, M.Product>, domain: string,
                             analyses: seq<D.FailureAnalysis>, report: HealingReport,
                             scrapeOk: bool, regen: R.RegenerationResult, now: real)
      returns (healed: bool)
      requires analyses != []
      modifies this, report, products.Values, if domain in stores then {stores[domain]} else {}
      // nothing happens without the store or the first product
      ensures domain !in stores || analyses[0].productId !in products ==>
                !healed && healingAttempts == old(healingAttempts) && report.attempts == old(report.attempts)
                && report.productsFailed == old(report.productsFailed)
                && report.productsFlaggedAttention == old(report.productsFlaggedAttention)
      // over the cap: the first product is flagged and nothing is attempted
      ensures domain in stores && analyses[0].productId in products
              && AttemptNumber(old(healingAttempts), analyses[0].productId) > regenerator.maxAttempts ==>
                !healed && products[analyses[0].productId].status == M.NeedsAttention
                && report.productsFlaggedAttention == old(report.productsFlaggedAttention) + 1
                && healingAttempts == old(healingAttempts) && report.attempts == old(report.attempts)
                && report.productsFailed == old(report.productsFailed)
      // the page could not be fetched: every product failed, no attempt counted
      ensures domain in stores && analyses[0].productId in products
              && AttemptNumber(old(healingAttempts), analyses[0].productId) <= regenerator.maxAttempts && !scrapeOk ==>
                !healed && report.productsFailed == old(report.productsFailed) + |analyses|
                && healingAttempts == old(healingAttempts) && report.attempts == old(report.attempts)
                && report.productsFlaggedAttention == old(report.productsFlaggedAttention)
      // otherwise one attempt is recorded under its number
      ensures domain in stores && analyses[0].productId in products
              && AttemptNumber(old(healingAttempts), analyses[0].productId) <= regenerator.maxAttempts && scrapeOk ==>
                && report.attempts == old(report.attempts) + [HealingAttempt(
                     analyses[0].productId, domain, regen.success,
                     AttemptNumber(old(healingAttempts), analyses[0].productId), regen.error, regen.selectors, now)]
                && healingAttempts == old(healingAttempts)[analyses[0].productId :=
                                                            AttemptNumber(old(healingAttempts), analyses[0].productId)]
      // a failed regeneration fails every product, and at the cap flags them
      ensures domain in stores && analyses[0].productId in products && scrapeOk
              && AttemptNumber(old(healingAttempts), analyses[0].productId) <= regenerator.maxAttempts && !regen.success ==>
                && !healed && report.productsFailed == old(report.productsFailed) + |analyses|
                && report.productsHealed == old(report.productsHealed)
                && (AttemptNumber(old(healingAttempts), analyses[0].productId) >= regenerator.maxAttempts ==>
                      report.productsFlaggedAttention == old(report.productsFlaggedAttention) + Present(analyses, products))
                && (AttemptNumber(old(healingAttempts), analyses[0].productId) < regenerator.maxAttempts ==>
                      report.productsFlaggedAttention == old(report.productsFlaggedAttention))
      // at the last allowed attempt a failure flags every analysed product
      ensures domain in stores && analyses[0].productId in products && scrapeOk && !healed
              && AttemptNumber(old(healingAttempts), analyses[0].productId) == regenerator.maxAttempts ==>
                forall k :: 0 <= k < |analyses| && analyses[k].productId in products
                  ==> products[analyses[k].productId].status == M.NeedsAttention
      // a heal merges the new selectors into the store's and resets every product
      ensures healed ==> && domain in stores && regen.selectors.JObj?
                         && stores[domain].selectors == JObj(R.Merged(old(stores[domain].selectors), regen.selectors.m))
                         && forall k :: 0 <= k < |analyses| && analyses[k].productId in products
                              ==> Reset(products[analyses[k].productId], now)
      ensures !healed && domain in stores ==> stores[domain].selectors == old(stores[domain].selectors)
      ensures healed ==> report.productsHealed == old(report.productsHealed) + |analyses| && regen.success
      ensures !healed ==> report.productsHealed == old(report.productsHealed)
      ensures report.totalProductsChecked == old(report.totalProductsChecked) && report.storesUpdated == old(report.storesUpdated)
      ensures old(report.productsFlaggedAttention) <= report.productsFlaggedAttention <= old(report.productsFlaggedAttention) + |analyses|
      ensures report.productsFailed == old(report.productsFailed) || report.productsFailed == old(report.productsFailed) + |analyses|
      ensures report.attempts == old(report.attempts) || (|report.attempts| == |old(report.attempts)| + 1
                                                          && report.attempts[|old(report.attempts)|].success == regen.success)
    {
      if domain !in stores {
        return false;
      }
      var store := stores[domain];
      var firstId := analyses[0].productId;
      if firstId !in products {
        return false;
      }
      var first := products[firstId];
      var attemptNum := AttemptNumber(healingAttempts, firstId);
      if attemptNum > regenerator.maxAttempts {
        FlagForAttention(first, now);
        report.productsFlaggedAttention := report.productsFlaggedAttention + 1;
        return false;
      }
      if !scrapeOk {
        report.productsFailed := report.productsFailed + |analyses|;
        return false;
      }
      report.attempts := report.attempts + [HealingAttempt(firstId, domain, regen.success, attemptNum,
                                                           regen.error, regen.selectors, now)];
      healingAttempts := healingAttempts[firstId := attemptNum];
      healed := ApplyRegeneration(store, analyses, products, report, regen, attemptNum, now);
    }

    /** The end of _heal_store_products once the attempt is recorded: a
        successful regeneration whose selectors the store takes heals every
        product; otherwise every product failed, and at the last allowed
        attempt each is flagged for attention. */
    method ApplyRegeneration(store: M.Store, analyses: seq<D.FailureAnalysis>, products: map<int, M.Product>,
                             report: HealingReport, regen: R.RegenerationResult, attemptNum: nat, now: real)
      returns (healed: bool)
      modifies report, products.Values, store
      ensures healed ==> regen.success && report.productsHealed == old(report.productsHealed) + |analyses|
                         && report.productsFailed == old(report.productsFailed)
                         && report.productsFlaggedAttention == old(report.productsFlaggedAttention)
      ensures !healed ==> report.productsHealed == old(report.productsHealed)
                          && report.productsFailed == old(report.productsFailed) + |analyses|
      ensures !healed && attemptNum >= regenerator.maxAttempts ==>
                report.productsFlaggedAttention == old(report.productsFlaggedAttention) + Present(analyses, products)
      ensures !healed && attemptNum < regenerator.maxAttempts ==>
                report.productsFlaggedAttention == old(report.productsFlaggedAttention)
      ensures report.totalProductsChecked == old(report.totalProductsChecked) && report.storesUpdated == old(report.storesUpdated)
      ensures report.attempts == old(report.attempts)
      ensures healed ==> && regen.selectors.JObj?
                         && store.selectors == JObj(R.Merged(old(store.selectors), regen.selectors.m))
                         && forall k :: 0 <= k < |analyses| && analyses[k].productId in products
                              ==> Reset(products[analyses[k].productId], now)
      ensures !healed ==> store.selectors == old(store.selectors)
      ensures !healed && attemptNum >= regenerator.maxAttempts ==>
                forall k :: 0 <= k < |analyses| && analyses[k].productId in products
                  ==> products[analyses[k].productId].status == M.NeedsAttention
    {
      if regen.success && Truthy(regen.selectors) {
        var updated := regenerator.UpdateStoreSelectors(store, regen.selectors, now);
        if updated {
          HealAll(detector, analyses, products, report, now);
          return true;
        }
      }
      report.productsFailed := report.productsFailed + |analyses|;
      if attemptNum >= regenerator.maxAttempts {
        FlagAll(analyses, products, report, now);
      }
      return false;
    }

    /** run_healing_cycle, with the regeneration outcome per store and the
        fetch outcome per page as inputs. The report counts the analyses
        found; the products are grouped by store and each store is healed
        once; with the placeholder regeneration nothing is ever healed. */
    method RunHealingCycle(rows: seq<M.Product>, products: map<int, M.Product>, stores: map<string, M.Store>,
                           logs: seq<M.ScrapeLog>, storeDomain: string, fetch: string -> bool,
                           regenerate: string -> R.RegenerationResult, now: real)
      returns (report: HealingReport)
      modifies this, products.Values, stores.Values
      ensures fresh(report)
      ensures report.totalProductsChecked
              == old(|detector.HealingAnalyses(detector.FirstCandidates(rows, storeDomain, maxProductsPerRun), logs, now)|)
      ensures report.totalProductsChecked <= maxProductsPerRun
      ensures report.totalProductsChecked == 0 ==> && report.productsHealed == 0 && report.productsFailed == 0
                                                   && report.productsFlaggedAttention == 0 && report.storesUpdated == 0
                                                   && report.attempts == []
      ensures report.productsHealed <= report.totalProductsChecked && report.productsFailed <= report.totalProductsChecked
      ensures report.productsFlaggedAttention <= report.totalProductsChecked
      ensures (forall d :: !regenerate(d).success) ==> report.productsHealed == 0 && report.storesUpdated == 0
                                                       && forall k :: 0 <= k < |report.attempts| ==> !report.attempts[k].success
    {
      report := new HealingReport();
      var toHeal := detector.GetProductsNeedingHealing(rows, logs, storeDomain, maxProductsPerRun, now);
      report.totalProductsChecked := |toHeal|;
      if toHeal == [] {
        return;
      }
      HealStores(toHeal, products, stores, report, fetch, regenerate, now);
    }

    /** The store loop of the cycle: the analyses grouped by store, each
        store healed once; every counter stays within the analyses. */
    method HealStores(toHeal: seq<D.FailureAnalysis>, products: map<int, M.Product>, stores: map<string, M.Store>,
                      report: HealingReport, fetch: string -> bool, regenerate: string -> R.RegenerationResult,
                      now: real)
      requires report.totalProductsChecked == |toHeal|
      requires report.productsHealed == 0 && report.productsFailed == 0 && report.productsFlaggedAttention == 0
      requires report.storesUpdated == 0 && report.attempts == []
      modifies this, report, products.Values, stores.Values
      ensures report.totalProductsChecked == |toHeal|
      ensures report.productsHealed <= |toHeal| && report.productsFailed <= |toHeal|
      ensures report.productsFlaggedAttention <= |toHeal|
      ensures (forall d :: !regenerate(d).success) ==> report.productsHealed == 0 && report.storesUpdated == 0
                                                       && forall k :: 0 <= k < |report.attempts| ==> !report.attempts[k].success
    {
      var domainOf := DomainOf(products);
      var order, groups := GroupByStore(toHeal, domainOf);
      GroupsPartition(toHeal, domainOf);
      for j := 0 to |order|
        invariant report.totalProductsChecked == |toHeal|
        invariant report.Bounded(GroupSizes(toHeal, domainOf, order[..j]))
        invariant (forall d :: !regenerate(d).success) ==> report.NoneHealed()
      {
        var d := order[j];
        GroupsNonEmpty(toHeal, domainOf, d);
        var analyses := groups[d];
        GroupSizesPrefix(toHeal, domainOf, order, j);
        HealNext(products, stores, d, analyses, report, fetch, regenerate(d), now,
                 GroupSizes(toHeal, domainOf, order[..j]), forall d :: !regenerate(d).success);
      }
      assert order[..|order|] == order;
    }

    /** One round of the healing loop, stated on the report's counters. */
    method HealNext(products: map<int, M.Product>, stores: map<string, M.Store>, d: string,
                    analyses: seq<D.FailureAnalysis>, report: HealingReport, fetch: string -> bool,
                    regen: R.RegenerationResult, now: real, ghost bound: nat, ghost allFail: bool)
      requires analyses != []
      requires report.Bounded(bound)
      requires allFail ==> !regen.success && report.NoneHealed()
      modifies this, report, products.Values, stores.Values
      ensures report.totalProductsChecked == old(report.totalProductsChecked)
      ensures report.Bounded(bound + |analyses|)
      ensures allFail ==> report.NoneHealed()
    {
      HealGroup(products, stores, d, analyses, report, fetch, regen, now);
    }

    /** One store of the cycle: heal it, and count it when its selectors
        were updated. */
    method HealGroup(products: map<int, M.Product>, stores: map<string, M.Store>, d: string,
                     analyses: seq<D.FailureAnalysis>, report: HealingReport, fetch: string -> bool,
                     regen: R.RegenerationResult, now: real)
      requires analyses != []
      modifies this, report, products.Values, stores.Values
      ensures report.totalProductsChecked == old(report.totalProductsChecked)
      ensures old(report.productsHealed) <= report.productsHealed <= old(report.productsHealed) + |analyses|
      ensures old(report.productsFailed) <= report.productsFailed <= old(report.productsFailed) + |analyses|
      ensures old(report.productsFlaggedAttention) <= report.productsFlaggedAttention
              <= old(report.productsFlaggedAttention) + |analyses|
      ensures !regen.success ==> report.productsHealed == old(report.productsHealed) && report.storesUpdated == old(report.storesUpdated)
      ensures !regen.success && (forall k :: 0 <= k < |old(report.attempts)| ==> !old(report.attempts)[k].success)
              ==> forall k :: 0 <= k < |report.attempts| ==> !report.attempts[k].success
    {
      var firstId := analyses[0].productId;
      var ok := if firstId in products then fetch(products[firstId].url) else false;
      var healed := HealStoreProducts(stores, products, d, analyses, report, ok, regen, now);
      if healed {
        report.storesUpdated := report.storesUpdated + 1;
      }
    }

    /** heal_single_product: attempt number 0 with an error for a product
        that is missing or needs no healing; else the attempt recorded for
        it, or attempt 0 with "Healing failed" when none was. */
    method HealSingleProduct(products: map<int, M.Product>, stores: map<string, M.Store>, logs: seq<M.ScrapeLog>,
                             productId: int, fetch: string -> bool, regenerate: string -> R.RegenerationResult, now: real)
      returns (attempt: HealingAttempt)
      requires Keyed(products)
      modifies this, products.Values, stores.Values
      ensures productId !in products ==> attempt == HealingAttempt(productId, "unknown", false, 0, Some("Product not found"), JNull, now)
      ensures productId in products && old(detector.AnalyzeProduct(products[productId], logs, now)).None? ==>
                attempt == HealingAttempt(productId, "unknown", false, 0, Some("Product not found"), JNull, now)
      ensures productId in products && old(detector.AnalyzeProduct(products[productId], logs, now)).Some?
              && !old(detector.AnalyzeProduct(products[productId], logs, now)).value.needsHealing ==>
                attempt == HealingAttempt(productId, "unknown", false, 0, Some("Product does not need healing"), JNull, now)
      // a product that needs healing: the attempt made, or "Healing failed" when none was made
      ensures productId in products && old(detector.AnalyzeProduct(products[productId], logs, now)).Some?
              && old(detector.AnalyzeProduct(products[productId], logs, now)).value.needsHealing ==>
                var domain := old(products[productId].storeDomain);
                var n := AttemptNumber(old(healingAttempts), productId);
                if domain in stores && n <= regenerator.maxAttempts && fetch(old(products[productId].url)) then
                  attempt == HealingAttempt(productId, domain, regenerate(domain).success, n,
                                            regenerate(domain).error, regenerate(domain).selectors, now)
                else attempt == HealingAttempt(productId, domain, false, 0, Some("Healing failed"), JNull, now)
      ensures attempt.attemptNumber == 0 ==> healingAttempts == old(healingAttempts)
      ensures attempt.attemptNumber != 0 ==> && attempt.productId == productId
                                             && attempt.attemptNumber == AttemptNumber(old(healingAttempts), productId)
                                             && attempt.attemptNumber <= regenerator.maxAttempts
                                             && healingAttempts == old(healingAttempts)[productId := attempt.attemptNumber]
      ensures attempt.success ==> attempt.attemptNumber != 0 && regenerate(attempt.domain).success
    {
      var p: M.Product? := if productId in products then products[productId] else null;
      var analysis := detector.AnalyzeProduct(p, logs, now);
      if analysis.None? {
        return HealingAttempt(productId, "unknown", false, 0, Some("Product not found"), JNull, now);
      }
      if !analysis.value.needsHealing {
        return HealingAttempt(productId, "unknown", false, 0, Some("Product does not need healing"), JNull, now);
      }
      var product := products[productId];
      var domain := product.storeDomain;
      var report := new HealingReport();
      var ok := fetch(product.url);
      var _ := HealStoreProducts(stores, products, domain, [analysis.value], report, ok, regenerate(domain), now);
      if report.attempts != [] {
        return report.attempts[0];
      }
      return HealingAttempt(productId, domain, false, 0, Some("Healing failed"), JNull, now);
    }
  }
}
