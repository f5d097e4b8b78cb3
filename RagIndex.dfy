/** The product collection of the vector index (rag/service.py): document
    ids, metadata sanitising, adding, updating, deleting and reading back a
    product, and the shaping of query results. The vector store itself is
    a map from document id to stored entry; nearest-neighbour search is the
    store's and its answer is a parameter of Query. */
module RagIndex {
  import opened Common
  import opened Embeddings

  const DocPrefix := "product_"

  /** _product_id_to_doc_id: "product_" and the decimal id. */
  function DocId(productId: int): (r: string)
  {
    DocPrefix + IntToString(productId)
  }

  /** str.replace(pat, ""): every occurrence, scanning left to right. */
  function RemoveAll(s: string, pat: string): (r: string)
    requires pat != []
    ensures |r| <= |s|
    decreases |s|
  {
    if |s| < |pat| then s
    else if s[..|pat|] == pat then RemoveAll(s[|pat|..], pat)
    else [s[0]] + RemoveAll(s[1..], pat)
  }

  /** A text without the pattern's first character has nothing to remove. */
  lemma {:induction false} RemoveAllAbsent(s: string, pat: string)
    requires pat != [] && pat[0] !in s
    ensures RemoveAll(s, pat) == s
    decreases |s|
  {
    if |s| >= |pat| {
      assert s[0] in s;
      assert s[..|pat|][0] == s[0];
      RemoveAllAbsent(s[1..], pat);
      assert [s[0]] + s[1..] == s;
    }
  }

  predicate AllDigits(s: string)
  {
    forall c :: c in s ==> IsDigit(c)
  }

  /** int(s) for an optional sign followed by ASCII digits, None for
      anything else. int() also accepts surrounding whitespace, underscores
      between digits and non-ASCII digits; those forms are read as None. */
  function ParseInt(s: string): (r: Option<int>)
    ensures r.Some? ==> s != []
  {
    if s != [] && (s[0] == '-' || s[0] == '+') then
      if s[1..] != [] && AllDigits(s[1..]) then
        var v: int := DigitsValue(s[1..]);
        Some(if s[0] == '-' then -v else v)
      else None
    else if s != [] && AllDigits(s) then Some(DigitsValue(s))
    else None
  }

  lemma ParseIntOfIntToString(n: int)
    ensures ParseInt(IntToString(n)) == Some(n)
  {
    if n >= 0 {
      DigitsValueOfNatToString(n);
      var d := NatToString(n);
      assert d[0] in d;
    } else {
      DigitsValueOfNatToString(-n);
      assert ("-" + NatToString(-n))[1..] == NatToString(-n);
    }
  }

  /** _doc_id_to_product_id: int(doc_id.replace("product_", "")). */
  function ProductIdOf(docId: string): Option<int>
  {
    ParseInt(RemoveAll(docId, DocPrefix))
  }

  /** Every id comes back from its document id. */
  lemma DocIdRoundTrip(productId: int)
    ensures ProductIdOf(DocId(productId)) == Some(productId)
  {
    var d := IntToString(productId);
    assert 'p' !in d by {
      if productId >= 0 {
        assert forall c :: c in NatToString(productId) ==> IsDigit(c);
      } else {
        assert forall c :: c in NatToString(-productId) ==> IsDigit(c);
        assert forall c :: c in d ==> c == '-' || c in NatToString(-productId);
      }
    }
    RemoveAllAbsent(d, DocPrefix);
    assert (DocPrefix + d)[..|DocPrefix|] == DocPrefix;
    assert (DocPrefix + d)[|DocPrefix|..] == d;
    ParseIntOfIntToString(productId);
  }

  /** Different products never share a document. */
  lemma DocIdInjective(a: int, b: int)
    requires DocId(a) == DocId(b)
    ensures a == b
  {
    DocIdRoundTrip(a);
    DocIdRoundTrip(b);
  }

  // ---------------------------------------------------------------
  // Metadata
  // ---------------------------------------------------------------

  /** The value the index keeps for a non-None value: the four scalar kinds
      as they are, anything else as its str(). */
  function Stored(v: MetaValue): (r: MetaValue)
    ensures !r.MNone? && !r.MOther?
    ensures !v.MNone? && !v.MOther? ==> r == v
  {
    match v
    case MOther(text) => MStr(text)
    case _ => if v.MNone? then MStr("None") else v
  }

  /** What _sanitize_metadata returns. */
  function Sanitized(m: map<string, MetaValue>): (r: map<string, MetaValue>)
    ensures r.Keys == set k | k in m && !m[k].MNone?
    ensures forall k :: k in r ==> r[k] == Stored(m[k])
  {
    map k | k in m && !m[k].MNone? :: Stored(m[k])
  }

  /** _sanitize_metadata: one pass over the entries, skipping None. */
  method SanitizeMetadata(m: map<string, MetaValue>) returns (r: map<string, MetaValue>)
    ensures r.Keys == set k | k in m && !m[k].MNone?
    ensures forall k :: k in r && (m[k].MStr? || m[k].MInt? || m[k].MFloat? || m[k].MBool?) ==> r[k] == m[k]
    ensures forall k :: k in r && m[k].MOther? ==> r[k] == MStr(m[k].text)
    ensures r == Sanitized(m)
  {
    var todo := m.Keys;
    r := map[];
    while todo != {}
      invariant todo <= m.Keys
      invariant r == map k | k in m.Keys - todo && !m[k].MNone? :: Stored(m[k])
      decreases |todo|
    {
      var k :| k in todo;
      var v := m[k];
      if !v.MNone? {
        if v.MOther? {
          r := r[k := MStr(v.text)];
        } else {
          r := r[k := v];
        }
      }
      todo := todo - {k};
    }
  }

  /** Sanitising twice is sanitising once. */
  lemma SanitizeIdempotent(m: map<string, MetaValue>)
    ensures Sanitized(Sanitized(m)) == Sanitized(m)
  {
  }

  /** The metadata built for a product needs no sanitising. */
  lemma ProductMetadataIsClean(productId: int, name: string, storeDomain: string, currentPrice: Option<real>,
                               inStock: bool, brand: Option<string>, upc: Option<string>)
    ensures var m := ProductMetadata(productId, name, storeDomain, currentPrice, inStock, brand, upc);
            Sanitized(m) == m
  {
  }

  // ---------------------------------------------------------------
  // The collection
  // ---------------------------------------------------------------

  datatype Entry = Entry(embedding: seq<real>, metadata: map<string, MetaValue>, document: string)

  /** What get_product returns. */
  datatype ProductEntry = ProductEntry(id: int, embedding: seq<real>, metadata: map<string, MetaValue>, document: string)

  /** One formatted query result; the score is 1 - distance. */
  datatype QueryHit = QueryHit(
    productId: int,
    metadata: Option<map<string, MetaValue>>,
    document: Option<string>,
    distance: Option<real>,
    score: Option<real>)

  class RagService {
    var docs: map<string, Entry>

    constructor()
      ensures docs == map[]
    {
      docs := map[];
    }

    /** add_product: stores the sanitised metadata under the product's
        document id; an id already present is left as it is. */
    method AddProduct(productId: int, embedding: seq<real>, metadata: map<string, MetaValue>, document: string)
      modifies this
      ensures DocId(productId) in old(docs) ==> docs == old(docs)
      ensures DocId(productId) !in old(docs) ==>
                docs == old(docs)[DocId(productId) := Entry(embedding, Sanitized(metadata), document)]
      ensures GetProduct(productId) == if DocId(productId) in old(docs) then old(GetProduct(productId))
                                       else Some(ProductEntry(productId, embedding, Sanitized(metadata), document))
    {
      var clean := SanitizeMetadata(metadata);
      var id := DocId(productId);
      if id !in docs {
        docs := docs[id := Entry(embedding, clean, document)];
      }
    }

    /** update_product: replaces the parts that are given; given metadata
        is sanitised and merged key by key into the stored metadata. A
        missing id changes nothing. */
    method UpdateProduct(productId: int, embedding: Option<seq<real>>, metadata: Option<map<string, MetaValue>>,
                         document: Option<string>)
      modifies this
      ensures DocId(productId) !in old(docs) ==> docs == old(docs)
      ensures DocId(productId) in old(docs) ==>
                var e := old(docs)[DocId(productId)];
                docs == old(docs)[DocId(productId) := Entry(
                  if embedding.Some? then embedding.value else e.embedding,
                  if metadata.Some? then e.metadata + Sanitized(metadata.value) else e.metadata,
                  if document.Some? then document.value else e.document)]
    {
      var id := DocId(productId);
      if id in docs {
        var e := docs[id];
        var md := e.metadata;
        if metadata.Some? {
          var clean := SanitizeMetadata(metadata.value);
          md := md + clean;
        }
        docs := docs[id := Entry(if embedding.Some? then embedding.value else e.embedding, md,
                                 if document.Some? then document.value else e.document)];
      }
    }

    /** delete_product. */
    method DeleteProduct(productId: int)
      modifies this
      ensures docs == old(docs) - {DocId(productId)}
    {
      docs := docs - {DocId(productId)};
    }

    /** get_product: None when no document has the product's id. */
    function GetProduct(productId: int): (r: Option<ProductEntry>)
      reads this
      ensures r.None? <==> DocId(productId) !in docs
      ensures r.Some? ==> r.value.id == productId
                          && r.value.embedding == docs[DocId(productId)].embedding
                          && r.value.metadata == docs[DocId(productId)].metadata
                          && r.value.document == docs[DocId(productId)].document
    {
      var id := DocId(productId);
      if id !in docs then None
      else Some(ProductEntry(productId, docs[id].embedding, docs[id].metadata, docs[id].document))
    }
  }

  /** The first document id that is not a product id. */
  function FirstBadId(ids: seq<string>): (r: Option<nat>)
    ensures r.None? <==> forall i :: 0 <= i < |ids| ==> ProductIdOf(ids[i]).Some?
    ensures r.Some? ==> r.value < |ids| && ProductIdOf(ids[r.value]).None?
                        && forall i :: 0 <= i < r.value ==> ProductIdOf(ids[i]).Some?
  {
    if ids == [] then None
    else if ProductIdOf(ids[0]).None? then Some(0)
    else
      var r := FirstBadId(ids[1..]);
      if r.Some? then Some(r.value + 1) else None
  }

  /** query, after the store answered with parallel lists (each of the
      optional lists is present exactly when the store returned it): one hit
      per returned id, in order, its score 1 - distance. An id that is not
      "product_<n>" raises ValueError. */
  method Query(ids: seq<string>, metadatas: Option<seq<map<string, MetaValue>>>, documents: Option<seq<string>>,
               distances: Option<seq<real>>)
    returns (r: Result<seq<QueryHit>, string>)
    requires metadatas.Some? ==> |metadatas.value| == |ids|
    requires documents.Some? ==> |documents.value| == |ids|
    requires distances.Some? ==> |distances.value| == |ids|
    ensures r.Ok? <==> FirstBadId(ids).None?
    ensures r.Err? ==> r.error == "invalid literal for int() with base 10: '"
                                  + RemoveAll(ids[FirstBadId(ids).value], DocPrefix) + "'"
    ensures r.Ok? ==> |r.value| == |ids|
    ensures r.Ok? ==> forall i :: 0 <= i < |ids| ==>
              && Some(r.value[i].productId) == ProductIdOf(ids[i])
              && r.value[i].metadata == (if metadatas.Some? then Some(metadatas.value[i]) else None)
              && r.value[i].document == (if documents.Some? then Some(documents.value[i]) else None)
              && r.value[i].distance == (if distances.Some? then Some(distances.value[i]) else None)
              && (r.value[i].score.Some? <==> r.value[i].distance.Some?)
              && (r.value[i].score.Some? ==> r.value[i].score.value + r.value[i].distance.value == 1.0)
  {
    var hits: seq<QueryHit> := [];
    for i := 0 to |ids|
      invariant |hits| == i
      invariant forall j :: 0 <= j < i ==> ProductIdOf(ids[j]).Some?
      invariant forall j :: 0 <= j < i ==>
                  && Some(hits[j].productId) == ProductIdOf(ids[j])
                  && hits[j].metadata == (if metadatas.Some? then Some(metadatas.value[j]) else None)
                  && hits[j].document == (if documents.Some? then Some(documents.value[j]) else None)
                  && hits[j].distance == (if distances.Some? then Some(distances.value[j]) else None)
                  && (hits[j].score.Some? <==> hits[j].distance.Some?)
                  && (hits[j].score.Some? ==> hits[j].score.value + hits[j].distance.value == 1.0)
    {
      var pid := ProductIdOf(ids[i]);
      if pid.None? {
        assert FirstBadId(ids).Some? && FirstBadId(ids).value == i;
        return Err("invalid literal for int() with base 10: '" + RemoveAll(ids[i], DocPrefix) + "'");
      }
      var distance := if distances.Some? then Some(distances.value[i]) else None;
      hits := hits + [QueryHit(pid.value,
                               if metadatas.Some? then Some(metadatas.value[i]) else None,
                               if documents.Some? then Some(documents.value[i]) else None,
                               distance,
                               if distance.Some? then Some(1.0 - distance.value) else None)];
    }
    r := Ok(hits);
  }
}
