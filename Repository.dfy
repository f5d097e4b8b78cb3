/** The record operations of database/repository.py. Product and store
    records are objects updated in place; the generic helpers, which work on
    any model through hasattr/setattr, act on a record's attribute map. */
module Repository {
  import opened Common
  import opened JsonValue
  import opened Models

  /** After this many consecutive failures a product needs attention. */
  const FailuresBeforeAttention: int := 3

  // ---------------------------------------------------------------
  // Generic helpers over attribute maps
  // ---------------------------------------------------------------

  /** update: every key of `data` the record has is written, other keys are
      ignored; then updated_at, if the record has one, is set to now. */
  function UpdateAttributes(attrs: map<string, Json>, data: map<string, Json>, now: real): (r: map<string, Json>)
    ensures r.Keys == attrs.Keys
    ensures forall k :: k in attrs && k != "updated_at" ==> r[k] == (if k in data then data[k] else attrs[k])
    ensures "updated_at" in attrs ==> r["updated_at"] == JNum(now)
  {
    var written := map k | k in attrs :: (if k in data then data[k] else attrs[k]);
    if "updated_at" in attrs then written["updated_at" := JNum(now)] else written
  }

  /** soft_delete: a record with deleted_at gets it (and updated_at, if it
      has one) set to now; any other record is left as it is. */
  function SoftDelete(attrs: map<string, Json>, now: real): (r: map<string, Json>)
    ensures "deleted_at" !in attrs ==> r == attrs
    ensures "deleted_at" in attrs ==> r.Keys == attrs.Keys && r["deleted_at"] == JNum(now)
    ensures "deleted_at" in attrs ==> forall k :: k in attrs && k != "deleted_at" && k != "updated_at" ==> r[k] == attrs[k]
    ensures "deleted_at" in attrs && "updated_at" in attrs ==> r["updated_at"] == JNum(now)
  {
    if "deleted_at" !in attrs then attrs
    else
      var d := attrs["deleted_at" := JNum(now)];
      if "updated_at" in attrs then d["updated_at" := JNum(now)] else d
  }

  /** The record is not soft-deleted. */
  predicate Live(attrs: map<string, Json>)
  {
    GetOr(attrs, "deleted_at", JNull) == JNull
  }

  /** The rows the query keeps before OFFSET/LIMIT: all of them, or only the
      live ones when the model has deleted_at and deleted rows are excluded. */
  function Visible(rows: seq<map<string, Json>>, filter: bool): (r: seq<map<string, Json>>)
    ensures |r| <= |rows|
    ensures forall x :: x in r ==> x in rows
    ensures filter ==> forall x :: x in rows ==> (x in r <==> Live(x))
    ensures filter ==> forall i :: 0 <= i < |r| ==> Live(r[i])
    ensures !filter ==> r == rows
  {
    if rows == [] then []
    else
      var rest := Visible(rows[1..], filter);
      if !filter || Live(rows[0]) then [rows[0]] + rest else rest
  }

  /** One row is kept exactly when nothing is filtered or it is live. */
  lemma VisibleOne(x: map<string, Json>, filter: bool)
    ensures Visible([x], filter) == (if !filter || Live(x) then [x] else [])
  {
    assert [x][1..] == [];
  }

  /** The filter keeps the table's order: the rows kept from a + b are those
      kept from a followed by those kept from b. With VisibleOne this fixes
      Visible as the order-preserving filter on Live. */
  lemma {:induction false} VisibleAppend(a: seq<map<string, Json>>, b: seq<map<string, Json>>, filter: bool)
    ensures Visible(a + b, filter) == Visible(a, filter) + Visible(b, filter)
  {
    if a == [] {
      assert a + b == b;
    } else {
      assert (a + b)[0] == a[0];
      assert (a + b)[1..] == a[1..] + b;
      VisibleAppend(a[1..], b, filter);
    }
  }

  /** SQL OFFSET as SQLite reads it: a negative offset skips nothing. */
  function Offset(s: seq<map<string, Json>>, skip: int): (r: seq<map<string, Json>>)
    ensures |r| == Max(0, |s| - Max(0, skip))
    ensures forall i :: 0 <= i < |r| ==> r[i] == s[Max(0, skip) + i]
  {
    if skip <= 0 then s else if skip >= |s| then [] else s[skip..]
  }

  /** SQL LIMIT as SQLite reads it: a negative limit takes everything. */
  function Limit(s: seq<map<string, Json>>, limit: int): (r: seq<map<string, Json>>)
    ensures limit >= 0 ==> |r| == Min(limit, |s|)
    ensures limit < 0 ==> r == s
    ensures r <= s
  {
    if limit < 0 || limit >= |s| then s else s[..limit]
  }

  /** get_all: the visible rows in table order, from position skip on, at
      most limit of them (OFFSET and LIMIT as SQLite reads negative values). */
  function GetAll(rows: seq<map<string, Json>>, hasDeletedAt: bool, skip: int, limit: int, includeDeleted: bool)
    : (r: seq<map<string, Json>>)
    ensures var v := Visible(rows, hasDeletedAt && !includeDeleted);
            |r| == (if limit < 0 then Max(0, |v| - Max(0, skip)) else Min(limit, Max(0, |v| - Max(0, skip))))
    ensures var v := Visible(rows, hasDeletedAt && !includeDeleted);
            forall i :: 0 <= i < |r| ==> r[i] == v[Max(0, skip) + i]
    ensures forall x :: x in r ==> x in rows
    ensures hasDeletedAt && !includeDeleted ==> forall i :: 0 <= i < |r| ==> Live(r[i])
  {
    Limit(Offset(Visible(rows, hasDeletedAt && !includeDeleted), skip), limit)
  }

  // ---------------------------------------------------------------
  // Stores
  // ---------------------------------------------------------------

  /** upsert_store over the store table keyed by domain: a known domain's
      record takes every non-None field of the new store except the domain,
      and its updated_at becomes now; an unknown domain inserts the store. */
  method UpsertStore(table: map<string, Store>, store: Store, now: real) returns (r: Store, newTable: map<string, Store>)
    modifies if store.domain in table then {table[store.domain]} else {}
    ensures store.domain !in table ==> r == store && newTable == table[store.domain := store]
    ensures store.domain in table ==> r == table[store.domain] && newTable == table
    ensures store.domain in table ==> (
      && r.domain == old(r.domain)
      && r.name == old(store.name) && r.isWhitelisted == old(store.isWhitelisted)
      && r.isActive == old(store.isActive) && r.rateLimitRpm == old(store.rateLimitRpm)
      && r.successRate == old(store.successRate) && r.createdAt == old(store.createdAt)
      && r.selectors == (if old(store.selectors) != JNull then old(store.selectors) else old(r.selectors))
      && r.lastSuccessAt == (if old(store.lastSuccessAt).Some? then old(store.lastSuccessAt) else old(r.lastSuccessAt))
      && r.updatedAt == now)
  {
    if store.domain !in table {
      return store, table[store.domain := store];
    }
    var existing := table[store.domain];
    var name, isWhitelisted, isActive, rpm := store.name, store.isWhitelisted, store.isActive, store.rateLimitRpm;
    var selectors, successRate, lastSuccessAt, createdAt := store.selectors, store.successRate, store.lastSuccessAt, store.createdAt;
    existing.name := name;
    existing.isWhitelisted := isWhitelisted;
    existing.isActive := isActive;
    if selectors != JNull {
      existing.selectors := selectors;
    }
    existing.rateLimitRpm := rpm;
    existing.successRate := successRate;
    if lastSuccessAt.Some? {
      existing.lastSuccessAt := lastSuccessAt;
    }
    existing.createdAt := createdAt;
    existing.updatedAt := now;
    return existing, table;
  }

  // ---------------------------------------------------------------
  // Products
  // ---------------------------------------------------------------

  /** increment_product_failures: one more failure; at three or more the
      product needs attention, otherwise its status is kept. */
  method IncrementProductFailures(p: Product, now: real)
    modifies p
    ensures p.consecutiveFailures == old(p.consecutiveFailures) + 1
    ensures p.status == if p.consecutiveFailures >= FailuresBeforeAttention then NeedsAttention else old(p.status)
    ensures p.updatedAt == now
    ensures Details(p) == old(Details(p)) && p.lastCheckedAt == old(p.lastCheckedAt) && p.deletedAt == old(p.deletedAt)
  {
    p.consecutiveFailures := p.consecutiveFailures + 1;
    p.updatedAt := now;
    if p.consecutiveFailures >= FailuresBeforeAttention {
      p.status := NeedsAttention;
    }
  }

  /** reset_product_failures: the count returns to zero, the product is
      active again and was just checked. */
  method ResetProductFailures(p: Product, now: real)
    modifies p
    ensures p.consecutiveFailures == 0 && p.status == Active
    ensures p.lastCheckedAt == Some(now) && p.updatedAt == now
    ensures Details(p) == old(Details(p)) && p.deletedAt == old(p.deletedAt)
  {
    p.consecutiveFailures := 0;
    p.status := Active;
    p.lastCheckedAt := Some(now);
    p.updatedAt := now;
  }
}
