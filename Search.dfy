/** Product search (rag/search.py): semantic search over the vector index
    enriched from the database, the database-only fallback, the metadata
    filter handed to the index, and the hybrid merge. The embedding API, the
    index's nearest-neighbour answer and the product table are parameters. */
module Search {
  import opened Common
  import opened Embeddings
  import RagIndex

  /** Where a result came from: "semantic", "hybrid" or "sqlite". */
  datatype Source = Semantic | Hybrid | Sqlite

  datatype SearchResult = SearchResult(
    productId: int,
    name: string,
    storeDomain: string,
    currentPrice: Option<real>,
    inStock: bool,
    score: Option<real>,
    source: Source)

  datatype SearchOptions = SearchOptions(
    limit: int,
    storeDomain: Option<string>,
    minPrice: Option<real>,
    maxPrice: Option<real>,
    inStockOnly: bool)

  /** SearchOptions() with every default. */
  const DefaultOptions := SearchOptions(10, None, None, None, false)

  /** A row of the product table as the search reads it; `deleted` is
      `deleted_at is not None`. */
  datatype Row = Row(
    id: int,
    name: string,
    brand: Option<string>,
    storeDomain: string,
    currentPrice: Option<real>,
    inStock: bool,
    deleted: bool)

  // ---------------------------------------------------------------
  // The metadata filter
  // ---------------------------------------------------------------

  datatype Op = Eq | Gte | Lte

  /** `{field: {op: value}}`. */
  datatype Condition = Condition(field: string, op: Op, value: MetaValue)

  /** A bare condition, or `{"$and": [...]}`. */
  datatype Where = Single(c: Condition) | And(all: seq<Condition>)

  /** The place of a condition in the order _build_where_filter adds them. */
  function Rank(c: Condition): nat
  {
    if c.field == "store_domain" then 0
    else if c.field == "in_stock" then 1
    else if c.op == Gte then 2
    else 3
  }

  /** The conditions for the options that are set, in the order store,
      stock, lowest price, highest price. */
  function Conditions(o: SearchOptions): (cs: seq<Condition>)
    ensures |cs| == (if TruthyText(o.storeDomain) then 1 else 0) + (if o.inStockOnly then 1 else 0)
                    + (if o.minPrice.Some? then 1 else 0) + (if o.maxPrice.Some? then 1 else 0)
    ensures forall i, j :: 0 <= i < j < |cs| ==> Rank(cs[i]) < Rank(cs[j])
  {
    var a := if TruthyText(o.storeDomain) then [Condition("store_domain", Eq, MStr(o.storeDomain.value))] else [];
    var b := if o.inStockOnly then [Condition("in_stock", Eq, MBool(true))] else [];
    var c := if o.minPrice.Some? then [Condition("current_price", Gte, MFloat(o.minPrice.value))] else [];
    var d := if o.maxPrice.Some? then [Condition("current_price", Lte, MFloat(o.maxPrice.value))] else [];
    RanksAscend(a, b, c, d);
    a + b + c + d
  }

  /** At most one condition of each rank, in rank order, is in rank order. */
  lemma RanksAscend(a: seq<Condition>, b: seq<Condition>, c: seq<Condition>, d: seq<Condition>)
    requires |a| <= 1 && |b| <= 1 && |c| <= 1 && |d| <= 1
    requires forall i :: 0 <= i < |a| ==> Rank(a[i]) == 0
    requires forall i :: 0 <= i < |b| ==> Rank(b[i]) == 1
    requires forall i :: 0 <= i < |c| ==> Rank(c[i]) == 2
    requires forall i :: 0 <= i < |d| ==> Rank(d[i]) == 3
    ensures var cs := a + b + c + d; forall i, j :: 0 <= i < j < |cs| ==> Rank(cs[i]) < Rank(cs[j])
  {
    var cs := a + b + c + d;
    forall i | 0 <= i < |cs|
      ensures Rank(cs[i]) == if i < |a| then 0 else if i < |a| + |b| then 1 else if i < |a| + |b| + |c| then 2 else 3
    {
      if i < |a| { assert cs[i] == a[i]; }
      else if i < |a| + |b| { assert cs[i] == b[i - |a|]; }
      else if i < |a| + |b| + |c| { assert cs[i] == c[i - |a| - |b|]; }
      else { assert cs[i] == d[i - |a| - |b| - |c|]; }
    }
  }

  /** _build_where_filter: None without conditions, the bare condition when
      there is one, their conjunction otherwise. */
  function BuildWhereFilter(o: SearchOptions): (r: Option<Where>)
    ensures r.None? <==> !TruthyText(o.storeDomain) && !o.inStockOnly && o.minPrice.None? && o.maxPrice.None?
    ensures r.Some? && r.value.Single? ==> r.value.c in Conditions(o) && |Conditions(o)| == 1
    ensures r.Some? && r.value.And? ==> r.value.all == Conditions(o) && |r.value.all| >= 2
  {
    var cs := Conditions(o);
    if cs == [] then None
    else if |cs| == 1 then Some(Single(cs[0]))
    else Some(And(cs))
  }

  /** How the index reads one condition against a document's metadata: the
      key must be present; numbers compare as numbers. */
  predicate Holds(c: Condition, md: map<string, MetaValue>)
  {
    c.field in md &&
    match c.op
    case Eq => md[c.field] == c.value
    case Gte => md[c.field].MFloat? && c.value.MFloat? && md[c.field].x >= c.value.x
    case Lte => md[c.field].MFloat? && c.value.MFloat? && md[c.field].x <= c.value.x
  }

  predicate Admits(w: Option<Where>, md: map<string, MetaValue>)
  {
    match w
    case None => true
    case Some(Single(c)) => Holds(c, md)
    case Some(And(cs)) => forall c :: c in cs ==> Holds(c, md)
  }

  /** The filters _sqlite_fallback puts on a row besides the text match. */
  predicate RowPasses(o: SearchOptions, row: Row)
  {
    && (TruthyText(o.storeDomain) ==> row.storeDomain == o.storeDomain.value)
    && (o.inStockOnly ==> row.inStock)
    && (o.minPrice.Some? ==> row.currentPrice.Some? && row.currentPrice.value >= o.minPrice.value)
    && (o.maxPrice.Some? ==> row.currentPrice.Some? && row.currentPrice.value <= o.maxPrice.value)
  }

  /** The metadata the index keeps for a row. */
  function RowMetadata(row: Row, upc: Option<string>): map<string, MetaValue>
  {
    ProductMetadata(row.id, row.name, row.storeDomain, row.currentPrice, row.inStock, row.brand, upc)
  }

  /** Every condition of a list holds. */
  predicate AllHold(cs: seq<Condition>, md: map<string, MetaValue>)
  {
    forall c :: c in cs ==> Holds(c, md)
  }

  /** The filter admits exactly the metadata every condition holds on. */
  lemma AdmitsAll(o: SearchOptions, md: map<string, MetaValue>)
    ensures Admits(BuildWhereFilter(o), md) <==> AllHold(Conditions(o), md)
  {
    var cs := Conditions(o);
    if |cs| == 1 {
      assert forall c :: c in cs ==> c == cs[0];
    }
  }

  lemma AllHoldConcat(x: seq<Condition>, y: seq<Condition>, md: map<string, MetaValue>)
    ensures AllHold(x + y, md) <==> AllHold(x, md) && AllHold(y, md)
  {
  }

  lemma AllHoldOne(c: Condition, md: map<string, MetaValue>)
    ensures AllHold([c], md) <==> Holds(c, md)
  {
    assert c in [c];
  }

  /** The vector-side filter and the database-side filter select the same
      products: a row's indexed metadata passes the where filter exactly
      when the row passes the fallback's own filters. */
  lemma FilterAgreesWithFallback(o: SearchOptions, row: Row, upc: Option<string>)
    ensures Admits(BuildWhereFilter(o), RowMetadata(row, upc)) <==> RowPasses(o, row)
  {
    var md := RowMetadata(row, upc);
    AdmitsAll(o, md);
    var a := if TruthyText(o.storeDomain) then [Condition("store_domain", Eq, MStr(o.storeDomain.value))] else [];
    var b := if o.inStockOnly then [Condition("in_stock", Eq, MBool(true))] else [];
    var c := if o.minPrice.Some? then [Condition("current_price", Gte, MFloat(o.minPrice.value))] else [];
    var d := if o.maxPrice.Some? then [Condition("current_price", Lte, MFloat(o.maxPrice.value))] else [];
    assert Conditions(o) == a + b + c + d;
    AllHoldConcat(a + b + c, d, md);
    AllHoldConcat(a + b, c, md);
    AllHoldConcat(a, b, md);
    assert "store_domain" in md && md["store_domain"] == MStr(row.storeDomain);
    assert "in_stock" in md && md["in_stock"] == MBool(row.inStock);
    assert "current_price" in md <==> row.currentPrice.Some?;
    assert "current_price" in md ==> md["current_price"] == MFloat(row.currentPrice.value);
    if TruthyText(o.storeDomain) {
      AllHoldOne(a[0], md);
      assert Holds(a[0], md) <==> row.storeDomain == o.storeDomain.value;
    }
    if o.inStockOnly {
      AllHoldOne(b[0], md);
      assert Holds(b[0], md) <==> row.inStock;
    }
    if o.minPrice.Some? {
      AllHoldOne(c[0], md);
      assert Holds(c[0], md) <==> row.currentPrice.Some? && row.currentPrice.value >= o.minPrice.value;
    }
    if o.maxPrice.Some? {
      AllHoldOne(d[0], md);
      assert Holds(d[0], md) <==> row.currentPrice.Some? && row.currentPrice.value <= o.maxPrice.value;
    }
  }

  // ---------------------------------------------------------------
  // The database fallback
  // ---------------------------------------------------------------

  /** SQL LIKE with no escape character: `%` matches any run of
      characters, `_` any one character, every other character itself. */
  predicate LikeMatch(p: string, t: string)
    decreases |p| + |t|
  {
    if p == [] then t == []
    else if p[0] == '%' then LikeMatch(p[1..], t) || (t != [] && LikeMatch(p, t[1..]))
    else t != [] && (p[0] == '_' || p[0] == t[0]) && LikeMatch(p[1..], t[1..])
  }

  /** `column.ilike(f"%{q}%")` on SQLite: `lower(column) LIKE lower(pattern)`,
      where lower folds ASCII letters only; a NULL column never matches.
      A `%` or `_` inside the query is a wildcard. */
  predicate ILike(text: Option<string>, q: string)
  {
    text.Some? && LikeMatch(LowerStr("%" + q + "%"), LowerStr(text.value))
  }

  /** A query with no wildcard character in it. */
  predicate Literal(q: string)
  {
    '%' !in q && '_' !in q
  }

  /** A pattern of literal characters followed by `%` matches exactly the
      texts that start with those characters. */
  lemma {:induction false} PrefixPattern(p: string, t: string)
    requires Literal(p)
    ensures LikeMatch(p + "%", t) <==> p <= t
    decreases |p|, |t|
  {
    if p == [] {
      assert p + "%" == "%";
      if t != [] {
        PrefixPattern(p, t[1..]);
      }
    } else {
      assert (p + "%")[1..] == p[1..] + "%";
      assert p[0] in p;
      if t != [] {
        PrefixPattern(p[1..], t[1..]);
      }
    }
  }

  /** `%p%` with a literal p matches exactly the texts containing p. */
  lemma {:induction false} InfixPattern(p: string, t: string)
    requires Literal(p)
    ensures LikeMatch("%" + p + "%", t) <==> Contains(t, p)
    decreases |t|
  {
    assert ("%" + p + "%")[1..] == p + "%";
    PrefixPattern(p, t);
    if t != [] {
      InfixPattern(p, t[1..]);
    }
  }

  /** For a query without `%` or `_`, the fallback's match is a
      substring test ignoring ASCII case. */
  lemma ILikeLiteral(text: string, q: string)
    requires Literal(q)
    ensures ILike(Some(text), q) <==> Contains(LowerStr(text), LowerStr(q))
  {
    var lq := LowerStr(q);
    assert LowerStr("%" + q + "%") == "%" + lq + "%" by {
      var w := "%" + q + "%";
      assert forall i :: 0 <= i < |w| ==> LowerStr(w)[i] == Lower(w[i]);
    }
    forall i | 0 <= i < |lq| ensures lq[i] != '%' && lq[i] != '_' {
      assert q[i] in q;
    }
    InfixPattern(lq, LowerStr(text));
  }

  /** An underscore in the query stands for any character: "a_b" finds
      "A-B", which holds no "a_b". */
  lemma UnderscoreMatchesAnyChar()
    ensures ILike(Some("A-B"), "a_b")
    ensures !Contains(LowerStr("A-B"), LowerStr("a_b"))
  {
    var t := LowerStr("A-B");
    assert t == "a-b";
    assert LowerStr("%" + "a_b" + "%") == "%a_b%";
    assert LikeMatch("", "");
    assert LikeMatch("%", "");
    assert LikeMatch("b%", "b");
    assert LikeMatch("_b%", "-b");
    assert LikeMatch("a_b%", "a-b");
    assert LikeMatch("%a_b%", "a-b");
    assert LowerStr("a_b") == "a_b";
    assert "a_b" != t;
  }

  /** The rows the fallback's statement selects before its LIMIT. */
  predicate Selected(q: string, o: SearchOptions, row: Row)
  {
    !row.deleted && (ILike(Some(row.name), q) || ILike(row.brand, q)) && RowPasses(o, row)
  }

  /** The selected rows in table order. */
  function SelectedRows(q: string, o: SearchOptions, rows: seq<Row>): (r: seq<Row>)
    ensures |r| <= |rows|
    ensures forall i :: 0 <= i < |r| ==> r[i] in rows && Selected(q, o, r[i])
    ensures forall row :: row in rows && Selected(q, o, row) ==> row in r
  {
    if rows == [] then []
    else
      var rest := SelectedRows(q, o, rows[1..]);
      assert forall row :: row in rows ==> row == rows[0] || row in rows[1..];
      if Selected(q, o, rows[0]) then [rows[0]] + rest else rest
  }

  /** SQL LIMIT: a negative limit takes everything. */
  function Limited<T>(s: seq<T>, limit: int): (r: seq<T>)
    ensures limit >= 0 ==> |r| == Min(limit, |s|)
    ensures r <= s
  {
    if limit < 0 || limit >= |s| then s else s[..limit]
  }

  function AsResult(row: Row, source: Source, score: Option<real>): SearchResult
  {
    SearchResult(row.id, row.name, row.storeDomain, row.currentPrice, row.inStock, score, source)
  }

  /** _sqlite_fallback: the selected rows up to the limit, as unscored
      "sqlite" results. */
  function SqliteFallback(q: string, o: SearchOptions, rows: seq<Row>): (r: seq<SearchResult>)
    ensures o.limit >= 0 ==> |r| == Min(o.limit, |SelectedRows(q, o, rows)|)
    ensures o.limit < 0 ==> |r| == |SelectedRows(q, o, rows)|
    ensures forall i :: 0 <= i < |r| ==> r[i] == AsResult(SelectedRows(q, o, rows)[i], Sqlite, None)
    ensures forall i :: 0 <= i < |r| ==> exists row :: row in rows && Selected(q, o, row) && r[i] == AsResult(row, Sqlite, None)
  {
    var sel := Limited(SelectedRows(q, o, rows), o.limit);
    var r := seq(|sel|, i requires 0 <= i < |sel| => AsResult(sel[i], Sqlite, None));
    assert forall i :: 0 <= i < |r| ==> sel[i] in rows && Selected(q, o, sel[i]) && r[i] == AsResult(sel[i], Sqlite, None);
    r
  }

  // ---------------------------------------------------------------
  // Enrichment of index hits
  // ---------------------------------------------------------------

  /** The row the enrichment reads for an id: a live row with that id
      (the last one, as a dict built from the rows keeps it), if any. */
  function Live(rows: seq<Row>, id: int): (r: Option<Row>)
    ensures r.Some? ==> r.value in rows && r.value.id == id && !r.value.deleted
    ensures r.None? ==> forall row :: row in rows ==> row.id != id || row.deleted
    decreases |rows|
  {
    if rows == [] then None
    else
      var last := rows[|rows| - 1];
      assert forall row :: row in rows ==> row == last || row in rows[..|rows| - 1];
      if last.id == id && !last.deleted then Some(last) else Live(rows[..|rows| - 1], id)
  }

  function TextAt(md: map<string, MetaValue>, key: string, default: string): string
  {
    if key in md && md[key].MStr? then md[key].s else default
  }

  function PriceAt(md: map<string, MetaValue>, key: string): Option<real>
  {
    if key in md && md[key].MFloat? then Some(md[key].x)
    else if key in md && md[key].MInt? then Some(md[key].i as real)
    else None
  }

  /** A hit can be turned into a result: its product is live, or the index
      returned its metadata (reading a missing metadata dict raises). */
  predicate Resolvable(h: RagIndex.QueryHit, db: seq<Row>)
  {
    Live(db, h.productId).Some? || h.metadata.Some?
  }

  /** A result built from a deleted product's stored metadata: the stored
      name and store, "Unknown" when missing; the stored price, none when
      missing; in stock only when stored as true. */
  predicate FromMetadata(r: SearchResult, md: map<string, MetaValue>)
  {
    && ("name" !in md ==> r.name == "Unknown")
    && ("name" in md && md["name"].MStr? ==> r.name == md["name"].s)
    && ("store_domain" !in md ==> r.storeDomain == "Unknown")
    && ("store_domain" in md && md["store_domain"].MStr? ==> r.storeDomain == md["store_domain"].s)
    && ("current_price" !in md ==> r.currentPrice.None?)
    && ("current_price" in md && md["current_price"].MFloat? ==> r.currentPrice == Some(md["current_price"].x))
    && ("in_stock" !in md ==> !r.inStock)
    && ("in_stock" in md && md["in_stock"].MBool? ==> r.inStock == md["in_stock"].b)
  }

  /** One enriched result: the live row's current data, else the stored
      metadata with "Unknown" names and out of stock as defaults. */
  function EnrichOne(h: RagIndex.QueryHit, db: seq<Row>): (r: SearchResult)
    requires Resolvable(h, db)
    ensures r.productId == h.productId && r.score == h.score && r.source == Semantic
    ensures Live(db, h.productId).Some? ==> r == AsResult(Live(db, h.productId).value, Semantic, h.score)
    ensures Live(db, h.productId).None? ==> FromMetadata(r, h.metadata.value)
  {
    match Live(db, h.productId)
    case Some(row) => AsResult(row, Semantic, h.score)
    case None =>
      var md := h.metadata.value;
      SearchResult(h.productId, TextAt(md, "name", "Unknown"), TextAt(md, "store_domain", "Unknown"),
                   PriceAt(md, "current_price"),
                   "in_stock" in md && md["in_stock"] == MBool(true), h.score, Semantic)
  }

  /** What _enrich_results returns: one result per hit, in order; None
      when a hit can be resolved neither way (the AttributeError the
      caller catches). */
  function Enriched(hits: seq<RagIndex.QueryHit>, db: seq<Row>): (r: Option<seq<SearchResult>>)
    ensures r.None? <==> exists i :: 0 <= i < |hits| && !Resolvable(hits[i], db)
    ensures r.Some? ==> |r.value| == |hits| && forall i :: 0 <= i < |hits| ==> r.value[i] == EnrichOne(hits[i], db)
  {
    if forall i :: 0 <= i < |hits| ==> Resolvable(hits[i], db) then
      Some(seq(|hits|, i requires 0 <= i < |hits| && Resolvable(hits[i], db) => EnrichOne(hits[i], db)))
    else None
  }

  /** _enrich_results. */
  method EnrichResults(hits: seq<RagIndex.QueryHit>, db: seq<Row>) returns (r: Option<seq<SearchResult>>)
    ensures r == Enriched(hits, db)
  {
    var results: seq<SearchResult> := [];
    for i := 0 to |hits|
      invariant |results| == i
      invariant forall j :: 0 <= j < i ==> Resolvable(hits[j], db) && results[j] == EnrichOne(hits[j], db)
    {
      if !Resolvable(hits[i], db) {
        assert 0 <= i < |hits| && !Resolvable(hits[i], db);
        return None;
      }
      results := results + [EnrichOne(hits[i], db)];
    }
    assert Enriched(hits, db).Some?;
    assert results == Enriched(hits, db).value;
    r := Some(results);
  }

  // ---------------------------------------------------------------
  // Semantic search and the fallback
  // ---------------------------------------------------------------

  /** What _semantic_search returns: embed the query, ask the index for
      `limit` nearest products under the options' filter, enrich the hits.
      The first failing step is the error. */
  function SemanticPath(query: string, o: SearchOptions, api: string -> Result<EmbeddingResult, string>,
                    nearest: (seq<real>, int, Option<Where>) -> Result<seq<RagIndex.QueryHit>, string>,
                    db: seq<Row>): (r: Result<seq<SearchResult>, string>)
    ensures EmbedText(query, api).Err? ==>
              r == Err("Failed to generate query embedding: " + EmbedText(query, api).error)
    ensures EmbedText(query, api).Ok? ==>
              var answer := nearest(EmbedText(query, api).value.embedding, o.limit, BuildWhereFilter(o));
              && (answer.Err? ==> r == Err(answer.error))
              && (answer.Ok? ==> (r.Ok? <==> forall i :: 0 <= i < |answer.value| ==> Resolvable(answer.value[i], db)))
              && (answer.Ok? && r.Ok? ==>
                    |r.value| == |answer.value| && forall i :: 0 <= i < |answer.value| ==> r.value[i] == EnrichOne(answer.value[i], db))
  {
    var e := EmbedText(query, api);
    if e.Err? then Err("Failed to generate query embedding: " + e.error)
    else
      var answer := nearest(e.value.embedding, o.limit, BuildWhereFilter(o));
      if answer.Err? then Err(answer.error)
      else
        match Enriched(answer.value, db)
        case None => Err("'NoneType' object has no attribute 'get'")
        case Some(rs) => Ok(rs)
  }

  /** _semantic_search. Its result is SemanticPath, whose own ensures
      state the error texts and the enriched hits. */
  method SemanticSearch(query: string, o: SearchOptions, api: string -> Result<EmbeddingResult, string>,
                        nearest: (seq<real>, int, Option<Where>) -> Result<seq<RagIndex.QueryHit>, string>,
                        db: seq<Row>)
    returns (r: Result<seq<SearchResult>, string>)
    ensures r == SemanticPath(query, o, api, nearest, db)
  {
    var e := EmbedText(query, api);
    if e.Err? {
      return Err("Failed to generate query embedding: " + e.error);
    }
    var answer := nearest(e.value.embedding, o.limit, BuildWhereFilter(o));
    if answer.Err? {
      return Err(answer.error);
    }
    var enriched := EnrichResults(answer.value, db);
    if enriched.None? {
      return Err("'NoneType' object has no attribute 'get'");
    }
    r := Ok(enriched.value);
  }

  /** search: the semantic results, or the database fallback when the
      semantic path fails at any step. `db` is the products table of the
      one session both paths read. */
  method SearchProducts(query: string, options: Option<SearchOptions>, api: string -> Result<EmbeddingResult, string>,
                        nearest: (seq<real>, int, Option<Where>) -> Result<seq<RagIndex.QueryHit>, string>,
                        db: seq<Row>)
    returns (r: seq<SearchResult>)
    ensures var o := if options.Some? then options.value else DefaultOptions;
            var sem := SemanticPath(query, o, api, nearest, db);
            r == if sem.Ok? then sem.value else SqliteFallback(query, o, db)
  {
    var o := if options.Some? then options.value else DefaultOptions;
    var semantic := SemanticSearch(query, o, api, nearest, db);
    if semantic.Ok? {
      r := semantic.value;
    } else {
      r := SqliteFallback(query, o, db);
    }
  }

  // ---------------------------------------------------------------
  // The hybrid merge
  // ---------------------------------------------------------------

  /** The product ids of a list of results. */
  function Ids(rs: seq<SearchResult>): (ids: set<int>)
    ensures forall i :: 0 <= i < |rs| ==> rs[i].productId in ids
    decreases |rs|
  {
    if rs == [] then {}
    else
      var pre := rs[..|rs| - 1];
      assert forall i :: 0 <= i < |pre| ==> pre[i] == rs[i];
      Ids(pre) + {rs[|rs| - 1].productId}
  }

  /** Every id of a list belongs to one of its results. */
  lemma {:induction false} IdsWitness(rs: seq<SearchResult>, id: int)
    requires id in Ids(rs)
    ensures exists i :: 0 <= i < |rs| && rs[i].productId == id
    decreases |rs|
  {
    var pre := rs[..|rs| - 1];
    if id != rs[|rs| - 1].productId {
      IdsWitness(pre, id);
      var i :| 0 <= i < |pre| && pre[i].productId == id;
      assert rs[i] == pre[i];
    }
  }

  lemma {:induction false} IdsAppend(a: seq<SearchResult>, b: seq<SearchResult>)
    ensures Ids(a + b) == Ids(a) + Ids(b)
    decreases |b|
  {
    if b == [] {
      assert a + b == a;
    } else {
      var b' := b[..|b| - 1];
      IdsAppend(a, b');
      assert (a + b)[..|a + b| - 1] == a + b';
    }
  }

  lemma IdsSnoc(a: seq<SearchResult>, x: SearchResult)
    ensures Ids(a + [x]) == Ids(a) + {x.productId}
  {
    assert (a + [x])[..|a|] == a;
  }

  /** No two results share a product id. */
  predicate Unique(rs: seq<SearchResult>)
  {
    forall i, j :: 0 <= i < j < |rs| ==> rs[i].productId != rs[j].productId
  }

  /** The results of `rs` in order, keeping the first result of each
      product id and skipping the ids in `seen`. */
  function Fresh(rs: seq<SearchResult>, seen: set<int>): (r: seq<SearchResult>)
    decreases |rs|
  {
    if rs == [] then []
    else
      var pre := Fresh(rs[..|rs| - 1], seen);
      var x := rs[|rs| - 1];
      if x.productId in seen + Ids(pre) then pre else pre + [x]
  }

  /** One more element whose id is new is kept ... */
  lemma FreshKeep(rs: seq<SearchResult>, i: nat, seen: set<int>)
    requires i < |rs| && rs[i].productId !in seen + Ids(Fresh(rs[..i], seen))
    ensures Fresh(rs[..i + 1], seen) == Fresh(rs[..i], seen) + [rs[i]]
  {
    assert rs[..i + 1][..i] == rs[..i];
  }

  /** ... and one whose id was seen is skipped. */
  lemma FreshSkip(rs: seq<SearchResult>, i: nat, seen: set<int>)
    requires i < |rs| && rs[i].productId in seen + Ids(Fresh(rs[..i], seen))
    ensures Fresh(rs[..i + 1], seen) == Fresh(rs[..i], seen)
  {
    assert rs[..i + 1][..i] == rs[..i];
  }

  /** Fresh keeps the new ids, each once. */
  lemma {:induction false} FreshIds(rs: seq<SearchResult>, seen: set<int>)
    ensures Ids(Fresh(rs, seen)) == Ids(rs) - seen
    decreases |rs|
  {
    if rs != [] {
      var pre := rs[..|rs| - 1];
      FreshIds(pre, seen);
      var f := Fresh(pre, seen);
      var x := rs[|rs| - 1];
      if x.productId !in seen + Ids(f) {
        assert (f + [x])[..|f|] == f;
      }
    }
  }

  lemma {:induction false} FreshUnique(rs: seq<SearchResult>, seen: set<int>)
    ensures Unique(Fresh(rs, seen))
    ensures forall i :: 0 <= i < |Fresh(rs, seen)| ==> Fresh(rs, seen)[i].productId !in seen
    decreases |rs|
  {
    if rs != [] {
      FreshUnique(rs[..|rs| - 1], seen);
    }
  }

  lemma {:induction false} FreshFrom(rs: seq<SearchResult>, seen: set<int>)
    ensures forall i :: 0 <= i < |Fresh(rs, seen)| ==> Fresh(rs, seen)[i] in rs
    decreases |rs|
  {
    if rs != [] {
      var pre := rs[..|rs| - 1];
      FreshFrom(pre, seen);
      assert forall x :: x in pre ==> x in rs;
    }
  }

  /** The kept results of a prefix are a prefix of the kept results. */
  lemma {:induction false} FreshPrefix(rs: seq<SearchResult>, k: nat, seen: set<int>)
    requires k <= |rs|
    ensures Fresh(rs[..k], seen) <= Fresh(rs, seen)
    decreases |rs|
  {
    if k < |rs| {
      var pre := rs[..|rs| - 1];
      FreshPrefix(pre, k, seen);
      assert pre[..k] == rs[..k];
    } else {
      assert rs[..k] == rs;
    }
  }

  /** `result.source = "hybrid"` on every result. */
  function Relabel(rs: seq<SearchResult>): (r: seq<SearchResult>)
    ensures |r| == |rs| && forall i :: 0 <= i < |rs| ==> r[i] == rs[i].(source := Hybrid)
  {
    seq(|rs|, i requires 0 <= i < |rs| => rs[i].(source := Hybrid))
  }

  lemma RelabelSnoc(rs: seq<SearchResult>, x: SearchResult)
    ensures Relabel(rs + [x]) == Relabel(rs) + [x.(source := Hybrid)]
  {
  }

  lemma RelabelPrefix(a: seq<SearchResult>, b: seq<SearchResult>)
    requires a <= b
    ensures Relabel(a) <= Relabel(b)
  {
  }

  lemma {:induction false} RelabelIds(rs: seq<SearchResult>)
    ensures Ids(Relabel(rs)) == Ids(rs)
    decreases |rs|
  {
    if rs != [] {
      var pre := rs[..|rs| - 1];
      RelabelIds(pre);
      assert Relabel(rs)[..|rs| - 1] == Relabel(pre);
    }
  }

  /** What _merge_results returns: the semantic results without repeated
      ids, then the database results whose ids are new, relabelled
      "hybrid", cut where the list first reaches the limit (which the
      first append always reaches when the limit is below one). */
  function Merged(semantic: seq<SearchResult>, sqlite: seq<SearchResult>, limit: int): (r: seq<SearchResult>)
    ensures |r| <= Max(limit, 1)
  {
    var all := Fresh(semantic, {}) + Relabel(Fresh(sqlite, Ids(semantic)));
    all[..Min(|all|, Max(limit, 1))]
  }

  /** A prefix of the merged list that is the whole list or has reached
      the limit is the merge. */
  lemma MergedByPrefix(semantic: seq<SearchResult>, sqlite: seq<SearchResult>, limit: int, m: seq<SearchResult>)
    requires m <= Fresh(semantic, {}) + Relabel(Fresh(sqlite, Ids(semantic)))
    requires |m| == Max(limit, 1) || m == Fresh(semantic, {}) + Relabel(Fresh(sqlite, Ids(semantic)))
    requires |m| <= Max(limit, 1)
    ensures m == Merged(semantic, sqlite, limit)
  {
    var all := Fresh(semantic, {}) + Relabel(Fresh(sqlite, Ids(semantic)));
    assert Min(|all|, Max(limit, 1)) == |m|;
  }

  lemma AppendPrefix(a: seq<SearchResult>, p: seq<SearchResult>, q: seq<SearchResult>)
    requires p <= q
    ensures a + p <= a + q
  {
    assert (a + q)[..|a + p|] == a + p;
  }

  /** The second loop stops after the database result at `k - 1` when
      that brings the list to the limit. */
  lemma CutInDatabase(semantic: seq<SearchResult>, sqlite: seq<SearchResult>, limit: int, k: nat)
    requires k <= |sqlite|
    requires |Fresh(semantic, {}) + Relabel(Fresh(sqlite[..k], Ids(semantic)))| == Max(limit, 1)
    ensures Fresh(semantic, {}) + Relabel(Fresh(sqlite[..k], Ids(semantic))) == Merged(semantic, sqlite, limit)
  {
    var s := Ids(semantic);
    FreshPrefix(sqlite, k, s);
    RelabelPrefix(Fresh(sqlite[..k], s), Fresh(sqlite, s));
    AppendPrefix(Fresh(semantic, {}), Relabel(Fresh(sqlite[..k], s)), Relabel(Fresh(sqlite, s)));
    MergedByPrefix(semantic, sqlite, limit, Fresh(semantic, {}) + Relabel(Fresh(sqlite[..k], s)));
  }

  /** _merge_results. */
  method MergeResults(semantic: seq<SearchResult>, sqlite: seq<SearchResult>, limit: int)
    returns (merged: seq<SearchResult>)
    ensures merged == Merged(semantic, sqlite, limit)
  {
    var cap := Max(limit, 1);
    var seen: set<int> := {};
    merged := [];
    for i := 0 to |semantic|
      invariant merged == Fresh(semantic[..i], {})
      invariant seen == Ids(merged)
      invariant |merged| < cap
    {
      var x := semantic[i];
      if x.productId !in seen {
        FreshKeep(semantic, i, {});
        IdsSnoc(merged, x);
        seen := seen + {x.productId};
        merged := merged + [x];
        if |merged| >= limit {
          FreshPrefix(semantic, i + 1, {});
          MergedByPrefix(semantic, sqlite, limit, merged);
          return;
        }
      } else {
        FreshSkip(semantic, i, {});
      }
    }
    assert semantic[..|semantic|] == semantic;
    FreshIds(semantic, {});
    merged := FillFromDatabase(semantic, sqlite, limit, merged, seen);
  }

  /** The second loop of _merge_results: database results with new ids,
      relabelled "hybrid", until the limit is reached. */
  method FillFromDatabase(semantic: seq<SearchResult>, sqlite: seq<SearchResult>, limit: int,
                          start: seq<SearchResult>, seen0: set<int>)
    returns (merged: seq<SearchResult>)
    requires start == Fresh(semantic, {}) && seen0 == Ids(semantic) && |start| < Max(limit, 1)
    ensures merged == Merged(semantic, sqlite, limit)
  {
    var cap := Max(limit, 1);
    var seen := seen0;
    merged := start;
    ghost var f: seq<SearchResult> := [];
    var j := 0;
    while j < |sqlite| && |merged| < cap
      invariant j <= |sqlite|
      invariant f == Fresh(sqlite[..j], seen0)
      invariant merged == start + Relabel(f)
      invariant seen == seen0 + Ids(f)
      invariant |merged| <= cap
    {
      var x := sqlite[j];
      if x.productId !in seen {
        FillKeep(sqlite, j, seen0, f, start);
        f := f + [x];
        seen := seen + {x.productId};
        merged := merged + [x.(source := Hybrid)];
      } else {
        FreshSkip(sqlite, j, seen0);
      }
      j := j + 1;
    }
    if j < |sqlite| {
      CutInDatabase(semantic, sqlite, limit, j);
    } else {
      assert sqlite[..|sqlite|] == sqlite;
      MergedByPrefix(semantic, sqlite, limit, merged);
    }
  }

  /** One database result kept by the second loop of _merge_results. */
  lemma FillKeep(sqlite: seq<SearchResult>, j: nat, seen0: set<int>, f: seq<SearchResult>, start: seq<SearchResult>)
    requires j < |sqlite| && f == Fresh(sqlite[..j], seen0) && sqlite[j].productId !in seen0 + Ids(f)
    ensures f + [sqlite[j]] == Fresh(sqlite[..j + 1], seen0)
    ensures Ids(f + [sqlite[j]]) == Ids(f) + {sqlite[j].productId}
    ensures start + Relabel(f + [sqlite[j]]) == start + Relabel(f) + [sqlite[j].(source := Hybrid)]
  {
    FreshKeep(sqlite, j, seen0);
    IdsSnoc(f, sqlite[j]);
    RelabelSnoc(f, sqlite[j]);
  }

  /** The merge never holds two results for one product. */
  lemma MergedUnique(semantic: seq<SearchResult>, sqlite: seq<SearchResult>, limit: int)
    ensures Unique(Merged(semantic, sqlite, limit))
  {
    var a := Fresh(semantic, {});
    var f := Fresh(sqlite, Ids(semantic));
    FreshUnique(semantic, {});
    FreshUnique(sqlite, Ids(semantic));
    FreshFrom(semantic, {});
    var all := a + Relabel(f);
    forall i, j | 0 <= i < j < |all| ensures all[i].productId != all[j].productId {
      if j >= |a| && i < |a| {
        var k :| 0 <= k < |semantic| && semantic[k] == a[i];
        assert all[i].productId in Ids(semantic);
        assert all[j].productId == f[j - |a|].productId;
      } else if i >= |a| {
        assert all[i].productId == f[i - |a|].productId;
        assert all[j].productId == f[j - |a|].productId;
      }
    }
  }

  /** Semantic results come first and unchanged; every later result is a
      database result relabelled "hybrid". */
  lemma MergedShape(semantic: seq<SearchResult>, sqlite: seq<SearchResult>, limit: int)
    requires forall x :: x in semantic ==> x.source != Hybrid
    ensures var r := Merged(semantic, sqlite, limit);
            && (forall i :: 0 <= i < |r| ==> r[i] in semantic || r[i] in Relabel(sqlite))
            && (forall i, j :: 0 <= i < j < |r| && r[i].source == Hybrid ==> r[j].source == Hybrid)
  {
    var a := Fresh(semantic, {});
    var f := Fresh(sqlite, Ids(semantic));
    FreshFrom(semantic, {});
    FreshFrom(sqlite, Ids(semantic));
    var all := a + Relabel(f);
    forall i | 0 <= i < |all| ensures all[i] in semantic || all[i] in Relabel(sqlite) {
      if i >= |a| {
        var k :| 0 <= k < |sqlite| && sqlite[k] == f[i - |a|];
        assert Relabel(sqlite)[k] == all[i];
      }
    }
  }

  /** Under the limit nothing is lost: every product of either list is in
      the merge. */
  lemma MergedComplete(semantic: seq<SearchResult>, sqlite: seq<SearchResult>, limit: int)
    requires limit >= |semantic| + |sqlite|
    ensures Ids(Merged(semantic, sqlite, limit)) == Ids(semantic) + Ids(sqlite)
  {
    var a := Fresh(semantic, {});
    var f := Fresh(sqlite, Ids(semantic));
    FreshIds(semantic, {});
    FreshIds(sqlite, Ids(semantic));
    RelabelIds(f);
    IdsAppend(a, Relabel(f));
    FreshLength(semantic, {});
    FreshLength(sqlite, Ids(semantic));
    var all := a + Relabel(f);
    assert all[..Min(|all|, Max(limit, 1))] == all;
  }

  lemma {:induction false} FreshLength(rs: seq<SearchResult>, seen: set<int>)
    ensures |Fresh(rs, seen)| <= |rs|
    decreases |rs|
  {
    if rs != [] {
      FreshLength(rs[..|rs| - 1], seen);
    }
  }

  /** hybrid_search: the semantic results (none when that path fails)
      merged with the database results, both read from the one session's
      products table `db`. */
  method HybridSearch(query: string, options: Option<SearchOptions>, api: string -> Result<EmbeddingResult, string>,
                      nearest: (seq<real>, int, Option<Where>) -> Result<seq<RagIndex.QueryHit>, string>,
                      db: seq<Row>)
    returns (r: seq<SearchResult>)
    ensures var o := if options.Some? then options.value else DefaultOptions;
            |r| <= Max(o.limit, 1) && Unique(r)
    ensures var o := if options.Some? then options.value else DefaultOptions;
            var sem := SemanticPath(query, o, api, nearest, db);
            r == Merged(if sem.Ok? then sem.value else [], SqliteFallback(query, o, db), o.limit)
  {
    var o := if options.Some? then options.value else DefaultOptions;
    var semantic := SemanticSearch(query, o, api, nearest, db);
    var sem := if semantic.Ok? then semantic.value else [];
    r := MergeResults(sem, SqliteFallback(query, o, db), o.limit);
    MergedUnique(sem, SqliteFallback(query, o, db), o.limit);
  }
}
