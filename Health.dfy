/** Store health (healing/health.py): per-store scrape success rates over a
    window, failing-product counts, the healthy and needs-attention flags,
    the report across stores, and writing the rate back to the store. The
    session is the store table, the product table and the scrape logs; the
    clock is a parameter. */
module Health {
  import opened Common
  import M = Models

  const DefaultWindowDays: int := 7
  const DefaultFailureThreshold: real := 0.5
  const DefaultMinScrapes: int := 5
  const SecondsPerDay: real := 86400.0

  datatype StoreHealth = StoreHealth(
    domain: string, name: string, totalProducts: nat, activeProducts: nat, failingProducts: nat,
    successRate: real, totalScrapes: nat, successfulScrapes: nat, isHealthy: bool,
    lastSuccessAt: Option<real>, needsAttention: bool)

  datatype HealthReport = HealthReport(
    calculatedAt: real, totalStores: nat, healthyStores: nat, unhealthyStores: int,
    storesNeedingAttention: nat, overallSuccessRate: real, storeHealth: seq<StoreHealth>)

  datatype ScrapeStats = ScrapeStats(total: nat, successful: nat, successRate: real)

  // ---------------------------------------------------------------
  // Queries
  // ---------------------------------------------------------------

  /** session.get(Store, domain): the store row with that domain. */
  function Lookup(table: seq<M.Store>, domain: string): (r: Option<M.Store>)
    reads table
    ensures r.None? <==> forall k :: 0 <= k < |table| ==> table[k].domain != domain
    ensures r.Some? ==> r.value in table && r.value.domain == domain
  {
    if table == [] then None
    else if table[0].domain == domain then Some(table[0])
    else
      assert forall k :: 1 <= k < |table| ==> table[k] == table[1..][k - 1];
      Lookup(table[1..], domain)
  }

  /** Store domains are the table's primary key: no two rows share one. */
  predicate UniqueDomains(table: seq<M.Store>)
    reads table
  {
    forall i, j :: 0 <= i < j < |table| ==> table[i].domain != table[j].domain
  }

  /** With unique domains, looking a row's domain up finds that row. */
  lemma LookupUnique(table: seq<M.Store>, s: M.Store)
    requires UniqueDomains(table) && s in table
    ensures Lookup(table, s.domain) == Some(s)
  {
    var r := Lookup(table, s.domain);
    var k :| 0 <= k < |table| && table[k] == s;
    var j :| 0 <= j < |table| && table[j] == r.value;
  }

  /** The stores the report covers: all, or only the active ones. */
  function Selected(table: seq<M.Store>, activeOnly: bool): (r: seq<M.Store>)
    reads table
    ensures forall k :: 0 <= k < |r| ==> r[k] in table && (activeOnly ==> r[k].isActive)
    ensures forall k :: 0 <= k < |table| && (activeOnly ==> table[k].isActive) ==> table[k] in r
    ensures !activeOnly ==> r == table
  {
    if table == [] then []
    else (if !activeOnly || table[0].isActive then [table[0]] else []) + Selected(table[1..], activeOnly)
  }

  /** A live product of the store. */
  predicate LiveOf(p: M.Product, domain: string)
    reads p
  {
    p.storeDomain == domain && p.deletedAt.None?
  }

  /** _count_products: live products of the store, of one status if given. */
  function CountProducts(products: seq<M.Product>, domain: string, status: Option<M.ProductStatus>): (n: nat)
    reads products
    ensures n <= |products|
  {
    if products == [] then 0
    else
      var p := products[|products| - 1];
      CountProducts(products[..|products| - 1], domain, status)
      + (if LiveOf(p, domain) && (status.None? || p.status == status.value) then 1 else 0)
  }

  /** _count_failing_products: live products in ERROR or NEEDS_ATTENTION. */
  function CountFailing(products: seq<M.Product>, domain: string): (n: nat)
    reads products
    ensures n <= |products|
  {
    if products == [] then 0
    else
      var p := products[|products| - 1];
      CountFailing(products[..|products| - 1], domain)
      + (if LiveOf(p, domain) && p.status in {M.ErrorStatus, M.NeedsAttention} then 1 else 0)
  }

  /** Active and failing products are among the store's products. */
  lemma {:induction false} CountsWithinTotal(products: seq<M.Product>, domain: string)
    ensures CountProducts(products, domain, Some(M.Active)) <= CountProducts(products, domain, None)
    ensures CountFailing(products, domain) <= CountProducts(products, domain, None)
    ensures CountProducts(products, domain, Some(M.Active)) + CountFailing(products, domain) <= CountProducts(products, domain, None)
  {
    if products != [] {
      CountsWithinTotal(products[..|products| - 1], domain);
    }
  }

  /** The ids of the store's live products. */
  function StoreIds(products: seq<M.Product>, domain: string): set<int>
    reads products
  {
    set i | 0 <= i < |products| && LiveOf(products[i], domain) :: products[i].id
  }

  /** Scrape logs of those products at or after the cutoff (successful ones
      only, when asked). */
  function CountLogs(logs: seq<M.ScrapeLog>, ids: set<int>, cutoff: real, onlySuccess: bool): (n: nat)
    ensures n <= |logs|
  {
    if logs == [] then 0
    else
      var l := logs[|logs| - 1];
      CountLogs(logs[..|logs| - 1], ids, cutoff, onlySuccess)
      + (if l.productId in ids && l.scrapedAt >= cutoff && (!onlySuccess || l.success) then 1 else 0)
  }

  lemma {:induction false} SuccessWithinTotal(logs: seq<M.ScrapeLog>, ids: set<int>, cutoff: real)
    ensures CountLogs(logs, ids, cutoff, true) <= CountLogs(logs, ids, cutoff, false)
  {
    if logs != [] {
      SuccessWithinTotal(logs[..|logs| - 1], ids, cutoff);
    }
  }

  /** Number of healthy stores in a list. */
  function CountHealthy(hs: seq<StoreHealth>): (n: nat)
    ensures n <= |hs|
  {
    if hs == [] then 0 else CountHealthy(hs[..|hs| - 1]) + (if hs[|hs| - 1].isHealthy then 1 else 0)
  }

  /** Number of stores needing attention in a list. */
  function CountAttention(hs: seq<StoreHealth>): (n: nat)
    ensures n <= |hs|
  {
    if hs == [] then 0 else CountAttention(hs[..|hs| - 1]) + (if hs[|hs| - 1].needsAttention then 1 else 0)
  }

  function SumScrapes(hs: seq<StoreHealth>): nat
  {
    if hs == [] then 0 else SumScrapes(hs[..|hs| - 1]) + hs[|hs| - 1].totalScrapes
  }

  function SumSuccess(hs: seq<StoreHealth>): nat
  {
    if hs == [] then 0 else SumSuccess(hs[..|hs| - 1]) + hs[|hs| - 1].successfulScrapes
  }

  /** One more store adds its own counts to the sums. */
  lemma SumsSnoc(hs: seq<StoreHealth>, x: StoreHealth)
    ensures SumSuccess(hs + [x]) == SumSuccess(hs) + x.successfulScrapes
    ensures SumScrapes(hs + [x]) == SumScrapes(hs) + x.totalScrapes
  {
    assert (hs + [x])[..|hs|] == hs;
  }

  /** Every store's successes are within its scrapes, so the sums are too. */
  lemma {:induction false} SumsOrdered(hs: seq<StoreHealth>)
    requires forall k :: 0 <= k < |hs| ==> hs[k].successfulScrapes <= hs[k].totalScrapes
    ensures SumSuccess(hs) <= SumScrapes(hs)
  {
    if hs != [] {
      SumsOrdered(hs[..|hs| - 1]);
    }
  }

  /** A part over a positive whole is a rate in [0, 1]. */
  lemma Ratio(part: nat, whole: nat)
    requires part <= whole && whole > 0
    ensures 0.0 <= part as real / whole as real <= 1.0
    ensures (part as real / whole as real) * whole as real == part as real
  {
    var q := part as real / whole as real;
    assert q * whole as real == part as real;
    assert (1.0 - q) * whole as real == whole as real - part as real;
  }

  /** The overall rate: successes over scrapes, 1.0 without scrapes. */
  function OverallRate(hs: seq<StoreHealth>): real
  {
    if SumScrapes(hs) > 0 then SumSuccess(hs) as real / SumScrapes(hs) as real else 1.0
  }

  lemma OverallRateBounded(hs: seq<StoreHealth>)
    requires forall k :: 0 <= k < |hs| ==> hs[k].successfulScrapes <= hs[k].totalScrapes
    ensures 0.0 <= OverallRate(hs) <= 1.0
  {
    SumsOrdered(hs);
    if SumScrapes(hs) > 0 {
      Ratio(SumSuccess(hs), SumScrapes(hs));
    }
  }

  /** get_unhealthy_stores' filter. */
  function Unhealthy(hs: seq<StoreHealth>): (r: seq<StoreHealth>)
    ensures forall h :: h in r <==> h in hs && !h.isHealthy
    ensures |r| == |hs| - CountHealthy(hs)
  {
    if hs == [] then [] else Unhealthy(hs[..|hs| - 1]) + (if hs[|hs| - 1].isHealthy then [] else [hs[|hs| - 1]])
  }

  /** get_stores_needing_attention's filter. */
  function NeedingAttention(hs: seq<StoreHealth>): (r: seq<StoreHealth>)
    ensures forall h :: h in r <==> h in hs && h.needsAttention
    ensures |r| == CountAttention(hs)
  {
    if hs == [] then [] else NeedingAttention(hs[..|hs| - 1]) + (if hs[|hs| - 1].needsAttention then [hs[|hs| - 1]] else [])
  }

  class StoreHealthCalculator {
    const windowDays: int
    const failureThreshold: real
    const minScrapes: int

    constructor(windowDays: int, failureThreshold: real, minScrapes: int)
      ensures this.windowDays == windowDays && this.failureThreshold == failureThreshold && this.minScrapes == minScrapes
    {
      this.windowDays := windowDays;
      this.failureThreshold := failureThreshold;
      this.minScrapes := minScrapes;
    }

    /** _calculate_scrape_stats: no live products gives 0, 0 and 1.0;
        otherwise the window's log counts, with a rate of 1.0 below
        min_scrapes and successful/total from there. */
    function ScrapeStatsOf(products: seq<M.Product>, logs: seq<M.ScrapeLog>, domain: string, cutoff: real): (r: ScrapeStats)
      reads products
      ensures StoreIds(products, domain) == {} ==> r == ScrapeStats(0, 0, 1.0)
      ensures StoreIds(products, domain) != {} ==> (&& r.total == CountLogs(logs, StoreIds(products, domain), cutoff, false)
                                                  && r.successful == CountLogs(logs, StoreIds(products, domain), cutoff, true))
      ensures r.successful <= r.total
      ensures 0.0 <= r.successRate <= 1.0
      ensures r.total < minScrapes ==> r.successRate == 1.0
      ensures r.total >= minScrapes && r.total > 0 ==> r.successRate * r.total as real == r.successful as real
    {
      var ids := StoreIds(products, domain);
      if ids == {} then ScrapeStats(0, 0, 1.0)
      else
        var total := CountLogs(logs, ids, cutoff, false);
        var successful := CountLogs(logs, ids, cutoff, true);
        SuccessWithinTotal(logs, ids, cutoff);
        var rate := if total < minScrapes then 1.0
                    else if total > 0 then (Ratio(successful, total); successful as real / total as real)
                    else 1.0;
        ScrapeStats(total, successful, rate)
    }

    /** The start of the window: window_days days before now. */
    function Cutoff(now: real): real
    {
      now - windowDays as real * SecondsPerDay
    }

    /** Unhealthy, or more than the threshold's fraction of products failing. */
    predicate AttentionFlag(healthy: bool, failing: nat, total: nat)
    {
      !healthy || failing as real > total as real * failureThreshold
    }

    /** calculate_store_health: None for an unknown store; healthy when the
        rate reaches 1 - failure_threshold; needing attention when unhealthy
        or when more than that fraction of products is failing. */
    function CalculateStoreHealth(table: seq<M.Store>, products: seq<M.Product>, logs: seq<M.ScrapeLog>,
                                  domain: string, now: real): (r: Option<StoreHealth>)
      reads table, products
      ensures r.None? <==> Lookup(table, domain).None?
      ensures r.Some? ==> r.value.domain == domain && r.value.name == Lookup(table, domain).value.name
                          && r.value.lastSuccessAt == Lookup(table, domain).value.lastSuccessAt
      ensures r.Some? ==> (r.value.isHealthy <==> r.value.successRate >= 1.0 - failureThreshold)
      ensures r.Some? ==> r.value.needsAttention == AttentionFlag(r.value.isHealthy, r.value.failingProducts, r.value.totalProducts)
      ensures r.Some? ==> 0.0 <= r.value.successRate <= 1.0 && r.value.successfulScrapes <= r.value.totalScrapes
      ensures r.Some? ==> r.value.activeProducts + r.value.failingProducts <= r.value.totalProducts
      ensures r.Some? ==> r.value.totalProducts == CountProducts(products, domain, None)
                          && r.value.activeProducts == CountProducts(products, domain, Some(M.Active))
                          && r.value.failingProducts == CountFailing(products, domain)
      ensures r.Some? ==> var stats := ScrapeStatsOf(products, logs, domain, Cutoff(now));
                          && r.value.successRate == stats.successRate && r.value.totalScrapes == stats.total
                          && r.value.successfulScrapes == stats.successful
    {
      match Lookup(table, domain)
      case None => None
      case Some(store) =>
        var cutoff := Cutoff(now);
        var total := CountProducts(products, domain, None);
        var active := CountProducts(products, domain, Some(M.Active));
        var failing := CountFailing(products, domain);
        CountsWithinTotal(products, domain);
        var stats := ScrapeStatsOf(products, logs, domain, cutoff);
        var healthy := stats.successRate >= 1.0 - failureThreshold;
        Some(StoreHealth(domain, store.name, total, active, failing, stats.successRate, stats.total, stats.successful,
                         healthy, store.lastSuccessAt, AttentionFlag(healthy, failing, total)))
    }

    /** Every unhealthy store needs attention. */
    lemma UnhealthyNeedsAttention(table: seq<M.Store>, products: seq<M.Product>, logs: seq<M.ScrapeLog>,
                                  domain: string, now: real)
      requires CalculateStoreHealth(table, products, logs, domain, now).Some?
      ensures !CalculateStoreHealth(table, products, logs, domain, now).value.isHealthy
              ==> CalculateStoreHealth(table, products, logs, domain, now).value.needsAttention
    {
    }

    /** With enough scrapes in the window and none successful, the rate is
        0 and, for any threshold below 1, the store is unhealthy. */
    lemma AllFailedUnhealthy(table: seq<M.Store>, products: seq<M.Product>, logs: seq<M.ScrapeLog>,
                             domain: string, now: real)
      requires failureThreshold < 1.0
      requires CalculateStoreHealth(table, products, logs, domain, now).Some?
      requires var h := CalculateStoreHealth(table, products, logs, domain, now).value;
               h.totalScrapes >= minScrapes && h.totalScrapes > 0 && h.successfulScrapes == 0
      ensures var h := CalculateStoreHealth(table, products, logs, domain, now).value;
              h.successRate == 0.0 && !h.isHealthy && h.needsAttention
    {
      var h := CalculateStoreHealth(table, products, logs, domain, now).value;
      assert h.successRate * h.totalScrapes as real == 0.0;
    }

    /** The health of each selected store, in order. */
    function HealthList(rows: seq<M.Store>, table: seq<M.Store>, products: seq<M.Product>, logs: seq<M.ScrapeLog>,
                        now: real): (r: seq<StoreHealth>)
      reads rows, table, products
      ensures |r| <= |rows|
      ensures forall k :: 0 <= k < |r| ==> 0.0 <= r[k].successRate <= 1.0 && r[k].successfulScrapes <= r[k].totalScrapes
    {
      if rows == [] then []
      else
        var h := CalculateStoreHealth(table, products, logs, rows[|rows| - 1].domain, now);
        HealthList(rows[..|rows| - 1], table, products, logs, now) + (if h.Some? then [h.value] else [])
    }

    /** The loop of calculate_all_health: each store's health with the
        running totals of successful and all scrapes. */
    method CollectHealth(rows: seq<M.Store>, table: seq<M.Store>, products: seq<M.Product>, logs: seq<M.ScrapeLog>,
                         now: real) returns (storeHealth: seq<StoreHealth>, totalSuccess: nat, totalScrapes: nat)
      ensures storeHealth == HealthList(rows, table, products, logs, now)
      ensures totalSuccess == SumSuccess(storeHealth) && totalScrapes == SumScrapes(storeHealth)
    {
      storeHealth := [];
      totalSuccess := 0;
      totalScrapes := 0;
      for i := 0 to |rows|
        invariant storeHealth == HealthList(rows[..i], table, products, logs, now)
        invariant totalSuccess == SumSuccess(storeHealth) && totalScrapes == SumScrapes(storeHealth)
      {
        HealthListStep(rows, i, table, products, logs, now);
        var health := CalculateStoreHealth(table, products, logs, rows[i].domain, now);
        storeHealth, totalSuccess, totalScrapes := Accumulate(storeHealth, totalSuccess, totalScrapes, health);
      }
      assert rows[..|rows|] == rows;
    }

    /** One store of the loop: its health, if any, joins the list and its
        counts the running totals. */
    method Accumulate(storeHealth: seq<StoreHealth>, totalSuccess: nat, totalScrapes: nat, health: Option<StoreHealth>)
      returns (storeHealth': seq<StoreHealth>, totalSuccess': nat, totalScrapes': nat)
      requires totalSuccess == SumSuccess(storeHealth) && totalScrapes == SumScrapes(storeHealth)
      ensures storeHealth' == storeHealth + (if health.Some? then [health.value] else [])
      ensures totalSuccess' == SumSuccess(storeHealth') && totalScrapes' == SumScrapes(storeHealth')
    {
      storeHealth', totalSuccess', totalScrapes' := storeHealth, totalSuccess, totalScrapes;
      if health.Some? {
        SumsSnoc(storeHealth, health.value);
        storeHealth' := storeHealth + [health.value];
        totalSuccess' := totalSuccess + health.value.successfulScrapes;
        totalScrapes' := totalScrapes + health.value.totalScrapes;
      }
    }

    /** One more store row adds that store's health, if it has one. */
    lemma HealthListStep(rows: seq<M.Store>, i: nat, table: seq<M.Store>, products: seq<M.Product>,
                         logs: seq<M.ScrapeLog>, now: real)
      requires i < |rows|
      ensures var h := CalculateStoreHealth(table, products, logs, rows[i].domain, now);
              HealthList(rows[..i + 1], table, products, logs, now)
              == HealthList(rows[..i], table, products, logs, now) + (if h.Some? then [h.value] else [])
    {
      assert rows[..i + 1][..i] == rows[..i];
    }

    /** calculate_all_health: the health of every selected store, with
        healthy + unhealthy = total and the overall rate over all scrapes. */
    method CalculateAllHealth(table: seq<M.Store>, products: seq<M.Product>, logs: seq<M.ScrapeLog>,
                              activeOnly: bool, now: real) returns (report: HealthReport)
      ensures report.storeHealth == HealthList(Selected(table, activeOnly), table, products, logs, now)
      ensures report.totalStores == |report.storeHealth|
      ensures report.healthyStores + report.unhealthyStores == report.totalStores
      ensures report.healthyStores == CountHealthy(report.storeHealth)
      ensures report.storesNeedingAttention == CountAttention(report.storeHealth)
      ensures report.overallSuccessRate == OverallRate(report.storeHealth)
      ensures 0.0 <= report.overallSuccessRate <= 1.0
      ensures report.calculatedAt == now
    {
      var storeHealth, totalSuccess, totalScrapes := CollectHealth(Selected(table, activeOnly), table, products, logs, now);
      var healthy := CountHealthy(storeHealth);
      var overall := if totalScrapes > 0 then totalSuccess as real / totalScrapes as real else 1.0;
      OverallRateBounded(storeHealth);
      report := HealthReport(now, |storeHealth|, healthy, |storeHealth| - healthy, CountAttention(storeHealth),
                             overall, storeHealth);
    }

    /** update_store_health: False for an unknown store; otherwise the
        store's success rate becomes the calculated one. */
    method UpdateStoreHealth(table: seq<M.Store>, products: seq<M.Product>, logs: seq<M.ScrapeLog>,
                             domain: string, now: real) returns (ok: bool)
      modifies table
      ensures ok <==> old(Lookup(table, domain)).Some?
      ensures ok ==> var s := old(Lookup(table, domain)).value;
                     s.successRate == old(CalculateStoreHealth(table, products, logs, domain, now)).value.successRate
                     && s.updatedAt == now
      ensures forall s :: s in table ==> && s.domain == old(s.domain) && s.isActive == old(s.isActive)
                                         && s.name == old(s.name) && s.lastSuccessAt == old(s.lastSuccessAt)
      ensures forall s :: (s in table && (!ok || s != old(Lookup(table, domain)).value))
                            ==> s.successRate == old(s.successRate) && s.updatedAt == old(s.updatedAt)
    {
      var health := CalculateStoreHealth(table, products, logs, domain, now);
      if health.None? {
        return false;
      }
      var store := Lookup(table, domain).value;
      store.successRate := health.value.successRate;
      store.updatedAt := now;
      return true;
    }

    /** update_all_health: every selected store is found and updated, so the
        count is the number of selected stores; each of them now carries the
        success rate of its window and the update time, and every other
        store is untouched. */
    method UpdateAllHealth(table: seq<M.Store>, products: seq<M.Product>, logs: seq<M.ScrapeLog>,
                           activeOnly: bool, now: real) returns (updated: nat)
      requires UniqueDomains(table)
      modifies table
      ensures updated == old(|Selected(table, activeOnly)|)
      ensures forall s :: s in table && (activeOnly ==> s.isActive) ==>
                s.successRate == ScrapeStatsOf(products, logs, s.domain, Cutoff(now)).successRate && s.updatedAt == now
      ensures forall s :: s in table && activeOnly && !s.isActive ==>
                s.successRate == old(s.successRate) && s.updatedAt == old(s.updatedAt)
      ensures forall s :: s in table ==> && s.domain == old(s.domain) && s.isActive == old(s.isActive)
                                         && s.name == old(s.name) && s.lastSuccessAt == old(s.lastSuccessAt)
    {
      var rows := Selected(table, activeOnly);
      UpdateRows(table, products, logs, rows, now);
      updated := |rows|;
    }

    /** The loop of update_all_health over the selected rows. */
    method UpdateRows(table: seq<M.Store>, products: seq<M.Product>, logs: seq<M.ScrapeLog>, rows: seq<M.Store>, now: real)
      requires UniqueDomains(table) && forall k :: 0 <= k < |rows| ==> rows[k] in table
      modifies table
      ensures forall s :: s in rows ==>
                s.successRate == ScrapeStatsOf(products, logs, s.domain, Cutoff(now)).successRate && s.updatedAt == now
      ensures forall s :: s in table && s !in rows ==> s.successRate == old(s.successRate) && s.updatedAt == old(s.updatedAt)
      ensures forall s :: s in table ==> && s.domain == old(s.domain) && s.isActive == old(s.isActive)
                                         && s.name == old(s.name) && s.lastSuccessAt == old(s.lastSuccessAt)
    {
      for i := 0 to |rows|
        invariant forall s :: s in table ==> && s.domain == old(s.domain) && s.isActive == old(s.isActive)
                                             && s.name == old(s.name) && s.lastSuccessAt == old(s.lastSuccessAt)
        invariant UniqueDomains(table)
        invariant forall s :: s in rows[..i] ==>
                    s.successRate == ScrapeStatsOf(products, logs, s.domain, Cutoff(now)).successRate && s.updatedAt == now
        invariant forall s :: s in table && s !in rows[..i] ==>
                    s.successRate == old(s.successRate) && s.updatedAt == old(s.updatedAt)
      {
        assert rows[..i + 1] == rows[..i] + [rows[i]];
        UpdateRow(table, products, logs, rows[i], now);
      }
      assert rows[..|rows|] == rows;
    }

    /** One round of update_all_health: the row, found by its domain, gets
        its window's success rate. */
    method UpdateRow(table: seq<M.Store>, products: seq<M.Product>, logs: seq<M.ScrapeLog>, s: M.Store, now: real)
      requires UniqueDomains(table) && s in table
      modifies table
      ensures UniqueDomains(table)
      ensures s.successRate == ScrapeStatsOf(products, logs, s.domain, Cutoff(now)).successRate && s.updatedAt == now
      ensures forall d :: ScrapeStatsOf(products, logs, d, Cutoff(now)) == old(ScrapeStatsOf(products, logs, d, Cutoff(now)))
      ensures forall t :: t in table && t != s ==> t.successRate == old(t.successRate) && t.updatedAt == old(t.updatedAt)
      ensures forall t :: t in table ==> && t.domain == old(t.domain) && t.isActive == old(t.isActive)
                                         && t.name == old(t.name) && t.lastSuccessAt == old(t.lastSuccessAt)
    {
      LookupUnique(table, s);
      var ok := UpdateStoreHealth(table, products, logs, s.domain, now);
      assert forall i, j :: 0 <= i < j < |table| ==> table[i].domain == old(table[i].domain) && table[j].domain == old(table[j].domain);
    }

    /** record_scrape_success: stamps an existing store's last success. */
    method RecordScrapeSuccess(table: seq<M.Store>, domain: string, now: real)
      modifies table
      ensures old(Lookup(table, domain)).Some? ==> (&& old(Lookup(table, domain)).value.lastSuccessAt == Some(now)
                                                   && old(Lookup(table, domain)).value.updatedAt == now)
      ensures forall s :: s in table ==> s.domain == old(s.domain) && s.successRate == old(s.successRate) && s.isActive == old(s.isActive)
      ensures forall s :: (s in table && (old(Lookup(table, domain)).None? || s != old(Lookup(table, domain)).value))
                            ==> s.lastSuccessAt == old(s.lastSuccessAt) && s.updatedAt == old(s.updatedAt)
    {
      var store := Lookup(table, domain);
      if store.Some? {
        store.value.lastSuccessAt := Some(now);
        store.value.updatedAt := now;
      }
    }
  }
}
