/** Failure detection for self-healing (healing/detector.py): scrape error
    types are classified into failure categories, of which three can be
    healed by regenerating selectors; a product's failure history decides
    whether it needs healing or a person's attention, and failures and
    successes update its counter and status. The database is passed in: the
    product object (null when missing), its scrape logs and the time. */
module Detector {
  import opened Common
  import M = Models

  datatype FailureCategory =
    | ParseFailure | StructureChange | PriceValidation
    | Blocked | NotFound | Network | Timeout | RobotsBlocked
    | Unknown

  const DefaultFailureThreshold: int := 3
  const DefaultAttentionDays: int := 3
  const MaxHealingAttempts: int := 3
  const SecondsPerDay: real := 86400.0

  /** ERROR_TYPE_TO_CATEGORY. */
  function CategoryOf(t: M.ScrapeErrorType): FailureCategory
  {
    match t
    case ParseFailure => ParseFailure
    case StructureChange => StructureChange
    case PriceValidation => PriceValidation
    case Blocked => Blocked
    case NotFound => NotFound
    case NetworkFailure => Network
    case Timeout => Timeout
    case RobotsBlocked => RobotsBlocked
  }

  /** classify_error: no error type is Unknown; every error type has its own
      category, none of them Unknown. */
  function ClassifyError(t: Option<M.ScrapeErrorType>): (c: FailureCategory)
    ensures t.None? <==> c == Unknown
    ensures t.Some? ==> c == CategoryOf(t.value)
  {
    if t.None? then Unknown else CategoryOf(t.value)
  }

  /** Distinct error types never share a category. */
  lemma ClassifyInjective(a: M.ScrapeErrorType, b: M.ScrapeErrorType)
    ensures ClassifyError(Some(a)) == ClassifyError(Some(b)) ==> a == b
  {
  }

  /** HEALABLE_CATEGORIES. */
  const Healable: set<FailureCategory> := {ParseFailure, StructureChange, PriceValidation}

  /** is_healable. */
  predicate IsHealable(c: FailureCategory)
  {
    c in Healable
  }

  /** The error types whose failures can be healed: exactly the parse,
      structure-change and price-validation failures. */
  lemma HealableErrorTypes(t: M.ScrapeErrorType)
    ensures IsHealable(ClassifyError(Some(t))) <==> t in {M.ParseFailure, M.StructureChange, M.PriceValidation}
  {
  }

  /** FailureAnalysis. */
  datatype FailureAnalysis = FailureAnalysis(
    productId: int,
    category: FailureCategory,
    consecutiveFailures: int,
    needsHealing: bool,
    needsAttention: bool,
    lastError: Option<string>,
    lastFailureAt: Option<real>)

  /** A failed scrape of the product. */
  predicate FailedLogOf(l: M.ScrapeLog, productId: int)
  {
    l.productId == productId && !l.success
  }

  /** The most recent failed scrape log of a product (the first one among
      logs scraped at the same instant). */
  function LastFailure(logs: seq<M.ScrapeLog>, productId: int): (r: Option<M.ScrapeLog>)
    ensures r.Some? ==> r.value in logs && FailedLogOf(r.value, productId)
    ensures r.Some? ==> forall i :: 0 <= i < |logs| && FailedLogOf(logs[i], productId) ==> logs[i].scrapedAt <= r.value.scrapedAt
    ensures r.None? <==> forall i :: 0 <= i < |logs| ==> !FailedLogOf(logs[i], productId)
  {
    if logs == [] then None
    else
      var rest := LastFailure(logs[1..], productId);
      if !FailedLogOf(logs[0], productId) then
        assert forall i :: 1 <= i < |logs| ==> logs[i] == logs[1..][i - 1];
        rest
      else if rest.None? || rest.value.scrapedAt <= logs[0].scrapedAt then
        assert forall i :: 1 <= i < |logs| ==> logs[i] == logs[1..][i - 1];
        Some(logs[0])
      else
        assert forall i :: 1 <= i < |logs| ==> logs[i] == logs[1..][i - 1];
        rest
  }

  /** The product has a not-found log scraped at or after the cutoff. */
  predicate NotFoundSince(logs: seq<M.ScrapeLog>, productId: int, cutoff: real)
  {
    exists i :: 0 <= i < |logs| && logs[i].productId == productId
                && logs[i].errorType == Some(M.NotFound) && logs[i].scrapedAt >= cutoff
  }

  class FailureDetector {
    const failureThreshold: int
    const attentionDays: int
    const maxHealingAttempts: int

    constructor(failureThreshold: int, attentionDays: int, maxHealingAttempts: int)
      ensures this.failureThreshold == failureThreshold && this.attentionDays == attentionDays
      ensures this.maxHealingAttempts == maxHealingAttempts
    {
      this.failureThreshold := failureThreshold;
      this.attentionDays := attentionDays;
      this.maxHealingAttempts := maxHealingAttempts;
    }

    /** needs_healing of analyze_product. */
    predicate NeedsHealing(failures: int, category: FailureCategory, status: M.ProductStatus)
    {
      failures >= failureThreshold && IsHealable(category) && status != M.NeedsAttention
    }

    /** _check_needs_attention, with the product's status and failure count:
        already flagged; a not-found failure with a not-found log inside the
        attention window; or a known non-healable failure at the threshold. */
    predicate NeedsAttention(status: M.ProductStatus, failures: int, productId: int, category: FailureCategory,
                             logs: seq<M.ScrapeLog>, now: real)
    {
      || status == M.NeedsAttention
      || (category == NotFound && NotFoundSince(logs, productId, now - attentionDays as real * SecondsPerDay))
      || (!IsHealable(category) && category != Unknown && failures >= failureThreshold)
    }

    /** An unknown failure never needs attention by the threshold alone. */
    lemma UnknownNeedsFlag(status: M.ProductStatus, failures: int, productId: int, logs: seq<M.ScrapeLog>, now: real)
      ensures NeedsAttention(status, failures, productId, Unknown, logs, now) <==> status == M.NeedsAttention
    {
    }

    /** A product is never sent both to healing and to a person. */
    lemma HealingExcludesAttention(status: M.ProductStatus, failures: int, productId: int, category: FailureCategory,
                                   logs: seq<M.ScrapeLog>, now: real)
      ensures !(NeedsHealing(failures, category, status) && NeedsAttention(status, failures, productId, category, logs, now))
    {
    }

    /** analyze_product: None for a missing or soft-deleted product;
        otherwise the category of its most recent failure (Unknown without
        one) and both verdicts. */
    function AnalyzeProduct(p: M.Product?, logs: seq<M.ScrapeLog>, now: real): (r: Option<FailureAnalysis>)
      reads p
      ensures p == null || p.deletedAt.Some? <==> r.None?
      ensures r.Some? ==> r.value.productId == p.id && r.value.consecutiveFailures == p.consecutiveFailures
      ensures r.Some? ==> r.value.category == (if LastFailure(logs, p.id).Some? then ClassifyError(LastFailure(logs, p.id).value.errorType) else Unknown)
      ensures r.Some? ==> (r.value.needsHealing <==> (p.consecutiveFailures >= failureThreshold
                                                      && IsHealable(r.value.category) && p.status != M.NeedsAttention))
      ensures r.Some? ==> r.value.needsAttention == NeedsAttention(p.status, p.consecutiveFailures, p.id, r.value.category, logs, now)
      ensures r.Some? ==> !(r.value.needsHealing && r.value.needsAttention)
    {
      if p == null || p.deletedAt.Some? then None
      else
        var last := LastFailure(logs, p.id);
        var category := if last.Some? then ClassifyError(last.value.errorType) else Unknown;
        HealingExcludesAttention(p.status, p.consecutiveFailures, p.id, category, logs, now);
        Some(FailureAnalysis(
          p.id, category, p.consecutiveFailures,
          NeedsHealing(p.consecutiveFailures, category, p.status),
          NeedsAttention(p.status, p.consecutiveFailures, p.id, category, logs, now),
          if last.Some? then last.value.errorMessage else None,
          if last.Some? then Some(last.value.scrapedAt) else None))
    }

    /** The products get_products_needing_healing queries: live, at the
        threshold, neither flagged nor archived, of the store when one is
        named. */
    predicate Candidate(p: M.Product, storeDomain: string)
      reads p
    {
      && p.deletedAt.None?
      && p.consecutiveFailures >= failureThreshold
      && p.status != M.NeedsAttention && p.status != M.Archived
      && (storeDomain != [] ==> p.storeDomain == storeDomain)
    }

    /** The query of get_products_needing_healing: the first `limit`
        candidates, in order. */
    function FirstCandidates(products: seq<M.Product>, storeDomain: string, limit: nat): (r: seq<M.Product>)
      reads products
      ensures |r| <= limit && |r| <= |products|
      ensures forall k :: 0 <= k < |r| ==> r[k] in products && Candidate(r[k], storeDomain)
      ensures |r| < limit ==> forall i :: 0 <= i < |products| && Candidate(products[i], storeDomain) ==> products[i] in r
    {
      if products == [] then []
      else
        var init := products[..|products| - 1];
        var last := products[|products| - 1];
        var r := FirstCandidates(init, storeDomain, limit);
        assert forall i :: 0 <= i < |init| ==> init[i] == products[i];
        if |r| < limit && Candidate(last, storeDomain) then r + [last] else r
    }

    /** The analyses of products that need healing, in order. */
    function HealingAnalyses(picked: seq<M.Product>, logs: seq<M.ScrapeLog>, now: real): (r: seq<FailureAnalysis>)
      reads picked
      ensures |r| <= |picked|
      ensures forall k :: 0 <= k < |r| ==> r[k].needsHealing && !r[k].needsAttention
      ensures forall k :: 0 <= k < |r| ==> exists i :: 0 <= i < |picked| && AnalyzeProduct(picked[i], logs, now) == Some(r[k])
    {
      if picked == [] then []
      else
        var init := picked[..|picked| - 1];
        var a := AnalyzeProduct(picked[|picked| - 1], logs, now);
        var r := HealingAnalyses(init, logs, now);
        assert forall i :: 0 <= i < |init| ==> init[i] == picked[i];
        if a.Some? && a.value.needsHealing then r + [a.value] else r
    }

    /** get_products_needing_healing: the first `limit` candidates, analysed,
        keeping those that need healing, in query order. */
    method GetProductsNeedingHealing(products: seq<M.Product>, logs: seq<M.ScrapeLog>, storeDomain: string, limit: nat, now: real)
      returns (results: seq<FailureAnalysis>)
      ensures results == HealingAnalyses(FirstCandidates(products, storeDomain, limit), logs, now)
      ensures |results| <= limit
    {
      var picked: seq<M.Product> := [];
      for i := 0 to |products|
        invariant picked == FirstCandidates(products[..i], storeDomain, limit)
      {
        assert products[..i + 1][..i] == products[..i];
        if |picked| < limit && Candidate(products[i], storeDomain) {
          picked := picked + [products[i]];
        }
      }
      assert products[..|products|] == products;
      results := [];
      for j := 0 to |picked|
        invariant results == HealingAnalyses(picked[..j], logs, now)
      {
        assert picked[..j + 1][..j] == picked[..j];
        var analysis := AnalyzeProduct(picked[j], logs, now);
        if analysis.Some? && analysis.value.needsHealing {
          results := results + [analysis.value];
        }
      }
      assert picked[..|picked|] == picked;
    }

    /** record_failure: a missing product gives 0; otherwise one more
        failure, then NEEDS_ATTENTION when attention is needed, ERROR at the
        threshold, the status unchanged otherwise; the new count is returned. */
    method RecordFailure(p: M.Product?, errorType: M.ScrapeErrorType, logs: seq<M.ScrapeLog>, now: real) returns (count: int)
      modifies if p == null then {} else {p}
      ensures p == null ==> count == 0
      ensures p != null ==> count == p.consecutiveFailures == old(p.consecutiveFailures) + 1
      ensures p != null ==> (p.status ==
                               if NeedsAttention(old(p.status), count, p.id, ClassifyError(Some(errorType)), logs, now) then M.NeedsAttention
                               else if count >= failureThreshold then M.ErrorStatus
                               else old(p.status))
      ensures p != null ==> p.updatedAt == now
      ensures p != null ==> M.Details(p) == old(M.Details(p)) && p.lastCheckedAt == old(p.lastCheckedAt) && p.deletedAt == old(p.deletedAt)
    {
      if p == null {
        return 0;
      }
      p.consecutiveFailures := p.consecutiveFailures + 1;
      p.updatedAt := now;
      var category := ClassifyError(Some(errorType));
      if NeedsAttention(p.status, p.consecutiveFailures, p.id, category, logs, now) {
        p.status := M.NeedsAttention;
      } else if p.consecutiveFailures >= failureThreshold {
        p.status := M.ErrorStatus;
      }
      count := p.consecutiveFailures;
    }

    /** record_success: the count returns to zero and an ERROR or
        NEEDS_ATTENTION product is active again; other statuses stay. */
    method RecordSuccess(p: M.Product?, now: real)
      modifies if p == null then {} else {p}
      ensures p != null ==> p.consecutiveFailures == 0 && p.lastCheckedAt == Some(now) && p.updatedAt == now
      ensures p != null ==> p.status == (if old(p.status) in {M.ErrorStatus, M.NeedsAttention} then M.Active else old(p.status))
      ensures p != null ==> M.Details(p) == old(M.Details(p)) && p.deletedAt == old(p.deletedAt)
    {
      if p == null {
        return;
      }
      p.consecutiveFailures := 0;
      p.lastCheckedAt := Some(now);
      p.updatedAt := now;
      if p.status in {M.ErrorStatus, M.NeedsAttention} {
        p.status := M.Active;
      }
    }
  }
}
