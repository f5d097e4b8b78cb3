/** Keeping the vector index in step with the product table (rag/sync.py):
    which index operation a product change calls for, and the operations
    themselves, each reporting failure as a result instead of raising. The
    embedding API and the price formatter are parameters. */
module Sync {
  import opened Common
  import opened Embeddings
  import M = Models
  import RagIndex

  /** SyncResult. */
  datatype SyncResult = SyncResult(success: bool, productId: int, operation: string, message: string)

  /** The four operations and their names in results. */
  datatype Operation = Add | Update | Delete | ReEmbed
  {
    function Name(): string
    {
      match this
      case Add => "add"
      case Update => "update"
      case Delete => "delete"
      case ReEmbed => "re_embed"
    }
  }

  /** sync_product's own re-embedding fields. */
  const SyncEmbeddingFields: set<string> := {"name", "brand"}

  /** update_metadata's re-embedding fields. */
  const MetadataEmbeddingFields: set<string> := {"name", "brand", "store_domain"}

  /** `fields_changed and set(fields_changed) & fields`. */
  predicate Touches(fieldsChanged: Option<seq<string>>, fields: set<string>)
  {
    fieldsChanged.Some? && exists i :: 0 <= i < |fieldsChanged.value| && fieldsChanged.value[i] in fields
  }

  /** What update_metadata does: re-embed when a changed field feeds the
      embedding, else rewrite the metadata only. */
  function MetadataRoute(fieldsChanged: Option<seq<string>>): (op: Operation)
    ensures op == ReEmbed || op == Update
  {
    if Touches(fieldsChanged, MetadataEmbeddingFields) then ReEmbed else Update
  }

  /** What sync_product calls: removal for a deleted product, indexing for
      a new one, re-embedding when name or brand changed, and otherwise
      update_metadata, which decides again. */
  function SyncRoute(isNew: bool, isDeleted: bool, deleted: bool, fieldsChanged: Option<seq<string>>): (op: Operation)
  {
    if isDeleted || deleted then Delete
    else if isNew then Add
    else if Touches(fieldsChanged, SyncEmbeddingFields) then ReEmbed
    else MetadataRoute(fieldsChanged)
  }

  /** The net effect of sync_product: deletion wins, then a new product is
      added, and an existing one is re-embedded exactly when a name, brand
      or store change is reported (the store through update_metadata's
      wider set); otherwise only its metadata is rewritten. */
  lemma SyncRouteTable(isNew: bool, isDeleted: bool, deleted: bool, fieldsChanged: Option<seq<string>>)
    ensures SyncRoute(isNew, isDeleted, deleted, fieldsChanged) == Delete <==> isDeleted || deleted
    ensures SyncRoute(isNew, isDeleted, deleted, fieldsChanged) == Add <==> !isDeleted && !deleted && isNew
    ensures SyncRoute(isNew, isDeleted, deleted, fieldsChanged) == ReEmbed <==>
              !isDeleted && !deleted && !isNew && Touches(fieldsChanged, MetadataEmbeddingFields)
    ensures SyncRoute(isNew, isDeleted, deleted, fieldsChanged) == Update <==>
              !isDeleted && !deleted && !isNew && !Touches(fieldsChanged, MetadataEmbeddingFields)
  {
    if Touches(fieldsChanged, SyncEmbeddingFields) {
      var i :| 0 <= i < |fieldsChanged.value| && fieldsChanged.value[i] in SyncEmbeddingFields;
      assert fieldsChanged.value[i] in MetadataEmbeddingFields;
    }
  }

  /** create_product_document for a product. */
  function Document(p: M.Product, format2: real -> string): string
    reads p
  {
    ProductDocument(p.name, p.brand, Some(p.storeDomain), p.currentPrice, p.currency, format2)
  }

  /** create_product_metadata for a product. */
  function Metadata(p: M.Product): map<string, MetaValue>
    reads p
  {
    ProductMetadata(p.id, p.name, p.storeDomain, p.currentPrice, p.inStock, p.brand, p.upc)
  }

  /** The document ids of some products. */
  function DocIds(ids: seq<int>): (r: set<string>)
    ensures forall i :: 0 <= i < |ids| ==> RagIndex.DocId(ids[i]) in r
    decreases |ids|
  {
    if ids == [] then {}
    else
      var pre := ids[..|ids| - 1];
      assert forall i :: 0 <= i < |pre| ==> pre[i] == ids[i];
      DocIds(pre) + {RagIndex.DocId(ids[|ids| - 1])}
  }

  /** The ids of some products. */
  function Ids(products: seq<M.Product>): (r: seq<int>)
    reads products
    ensures |r| == |products|
    ensures forall i :: 0 <= i < |products| ==> r[i] == products[i].id
  {
    seq(|products|, i reads products requires 0 <= i < |products| => products[i].id)
  }

  /** The documents bulk_index embeds, one per product. */
  function Documents(products: seq<M.Product>, format2: real -> string): (r: seq<string>)
    reads products
    ensures |r| == |products|
    ensures forall i :: 0 <= i < |products| ==> r[i] == Document(products[i], format2)
  {
    seq(|products|, i reads products requires 0 <= i < |products| => Document(products[i], format2))
  }

  /** Every entry of `before` is still in `after`, unchanged: adding never
      overwrites. */
  predicate Kept(before: map<string, RagIndex.Entry>, after: map<string, RagIndex.Entry>)
  {
    forall k :: k in before ==> k in after && after[k] == before[k]
  }

  lemma KeptTransitive(a: map<string, RagIndex.Entry>, b: map<string, RagIndex.Entry>, c: map<string, RagIndex.Entry>)
    requires Kept(a, b) && Kept(b, c)
    ensures Kept(a, c)
  {
  }

  /** An add that leaves a present key alone and otherwise inserts it keeps
      every entry and holds the key afterwards. */
  lemma AddStep(before: map<string, RagIndex.Entry>, after: map<string, RagIndex.Entry>, key: string, v: RagIndex.Entry)
    requires key in before ==> after == before
    requires key !in before ==> after == before[key := v]
    ensures Kept(before, after) && key in after
  {
  }

  /** add_product on the stored map: a key already present is left alone. */
  function Inserted(docs: map<string, RagIndex.Entry>, key: string, v: RagIndex.Entry): (r: map<string, RagIndex.Entry>)
    ensures Kept(docs, r) && key in r
    ensures key !in docs ==> r[key] == v
    ensures r.Keys == docs.Keys + {key}
  {
    if key in docs then docs else docs[key := v]
  }

  /** The metadata of each product, in order. */
  function Metas(products: seq<M.Product>): (r: seq<map<string, MetaValue>>)
    reads products
    ensures |r| == |products|
    ensures forall i :: 0 <= i < |products| ==> r[i] == Metadata(products[i])
  {
    seq(|products|, i reads products requires 0 <= i < |products| => Metadata(products[i]))
  }

  /** The index after index_product for the product with this id, metadata
      and document, given the embedding outcome: on success the entry is
      added unless one is there already; on failure nothing changes. */
  function Indexed(docs: map<string, RagIndex.Entry>, id: int, meta: map<string, MetaValue>, document: string,
                   e: Result<EmbeddingResult, string>): (r: map<string, RagIndex.Entry>)
    ensures Kept(docs, r)
    ensures e.Ok? ==> RagIndex.DocId(id) in r
    ensures e.Ok? && RagIndex.DocId(id) !in docs ==>
              r[RagIndex.DocId(id)] == RagIndex.Entry(e.value.embedding, RagIndex.Sanitized(meta), document)
    ensures e.Err? ==> r == docs
  {
    if e.Ok? then Inserted(docs, RagIndex.DocId(id), RagIndex.Entry(e.value.embedding, RagIndex.Sanitized(meta), document))
    else docs
  }

  /** The index after reembed_product, given the embedding outcome: an
      entry that is there takes the new embedding and document, and its
      metadata is overlaid with the product's. */
  function Reembedded(docs: map<string, RagIndex.Entry>, id: int, meta: map<string, MetaValue>, document: string,
                      e: Result<EmbeddingResult, string>): (r: map<string, RagIndex.Entry>)
    ensures r.Keys == docs.Keys
    ensures forall k :: k in docs && k != RagIndex.DocId(id) ==> r[k] == docs[k]
    ensures e.Ok? && RagIndex.DocId(id) in docs ==>
              r[RagIndex.DocId(id)] == RagIndex.Entry(e.value.embedding,
                                                      docs[RagIndex.DocId(id)].metadata + RagIndex.Sanitized(meta), document)
    ensures e.Err? ==> r == docs
  {
    var key := RagIndex.DocId(id);
    if e.Ok? && key in docs then
      docs[key := RagIndex.Entry(e.value.embedding, docs[key].metadata + RagIndex.Sanitized(meta), document)]
    else docs
  }

  /** The index after update_metadata's metadata-only route: embedding and
      document stay, the metadata is overlaid with the product's. */
  function MetadataMerged(docs: map<string, RagIndex.Entry>, id: int, meta: map<string, MetaValue>)
    : (r: map<string, RagIndex.Entry>)
    ensures r.Keys == docs.Keys
    ensures forall k :: k in docs && k != RagIndex.DocId(id) ==> r[k] == docs[k]
    ensures forall k :: k in docs ==> r[k].embedding == docs[k].embedding && r[k].document == docs[k].document
    ensures RagIndex.DocId(id) in docs ==>
              r[RagIndex.DocId(id)].metadata == docs[RagIndex.DocId(id)].metadata + RagIndex.Sanitized(meta)
  {
    var key := RagIndex.DocId(id);
    if key in docs then
      docs[key := RagIndex.Entry(docs[key].embedding, docs[key].metadata + RagIndex.Sanitized(meta), docs[key].document)]
    else docs
  }

  /** The embedding outcomes of the first n documents, in order. */
  function Outcomes(documents: seq<string>, api: string -> Result<EmbeddingResult, string>, n: nat)
    : (r: seq<Result<EmbeddingResult, string>>)
    requires n <= |documents|
    ensures |r| == n
    decreases n
  {
    if n == 0 then [] else Outcomes(documents, api, n - 1) + [EmbedText(documents[n - 1], api)]
  }

  /** The i-th outcome is the embedding of the i-th document. */
  lemma {:induction false} OutcomeAt(documents: seq<string>, api: string -> Result<EmbeddingResult, string>, n: nat, i: nat)
    requires i < n <= |documents|
    ensures Outcomes(documents, api, n)[i] == EmbedText(documents[i], api)
    decreases n
  {
    if i < n - 1 {
      OutcomeAt(documents, api, n - 1, i);
    }
  }

  /** Every outcome is the embedding of its document. */
  lemma OutcomesAre(documents: seq<string>, api: string -> Result<EmbeddingResult, string>)
    ensures forall i :: 0 <= i < |documents| ==> Outcomes(documents, api, |documents|)[i] == EmbedText(documents[i], api)
  {
    forall i | 0 <= i < |documents|
      ensures Outcomes(documents, api, |documents|)[i] == EmbedText(documents[i], api)
    {
      OutcomeAt(documents, api, |documents|, i);
    }
  }

  /** The index after index_product for the first n products in turn,
      given each product's embedding outcome. */
  function IndexedAll(docs: map<string, RagIndex.Entry>, ids: seq<int>, metas: seq<map<string, MetaValue>>,
                      documents: seq<string>, outcomes: seq<Result<EmbeddingResult, string>>, n: nat)
    : (r: map<string, RagIndex.Entry>)
    requires |metas| == |ids| && |documents| == |ids| && |outcomes| == |ids| && n <= |ids|
    decreases n
  {
    if n == 0 then docs
    else Indexed(IndexedAll(docs, ids, metas, documents, outcomes, n - 1), ids[n - 1], metas[n - 1], documents[n - 1],
                 outcomes[n - 1])
  }

  /** The index after bulk_index's loop over the first n products of a
      batch: the i-th embedding with the i-th product and document, while
      embeddings last. */
  function AddedAll(docs: map<string, RagIndex.Entry>, ids: seq<int>, metas: seq<map<string, MetaValue>>,
                    documents: seq<string>, embeddings: seq<seq<real>>, n: nat): (r: map<string, RagIndex.Entry>)
    requires |metas| == |ids| && |documents| == |ids| && n <= |ids|
    decreases n
  {
    if n == 0 then docs
    else
      var prev := AddedAll(docs, ids, metas, documents, embeddings, n - 1);
      if n - 1 < |embeddings| then
        Inserted(prev, RagIndex.DocId(ids[n - 1]),
                 RagIndex.Entry(embeddings[n - 1], RagIndex.Sanitized(metas[n - 1]), documents[n - 1]))
      else prev
  }

  /** The batch adds keep every entry already there. */
  lemma {:induction false} AddedAllKept(docs: map<string, RagIndex.Entry>, ids: seq<int>,
                                        metas: seq<map<string, MetaValue>>, documents: seq<string>,
                                        embeddings: seq<seq<real>>, n: nat)
    requires |metas| == |ids| && |documents| == |ids| && n <= |ids|
    ensures Kept(docs, AddedAll(docs, ids, metas, documents, embeddings, n))
    decreases n
  {
    if n != 0 {
      AddedAllKept(docs, ids, metas, documents, embeddings, n - 1);
      var prev := AddedAll(docs, ids, metas, documents, embeddings, n - 1);
      KeptTransitive(docs, prev, AddedAll(docs, ids, metas, documents, embeddings, n));
    }
  }

  /** Every product whose embedding came back is in the index after the
      batch adds. */
  lemma {:induction false} AddedAllHolds(docs: map<string, RagIndex.Entry>, ids: seq<int>,
                                         metas: seq<map<string, MetaValue>>, documents: seq<string>,
                                         embeddings: seq<seq<real>>, n: nat)
    requires |metas| == |ids| && |documents| == |ids| && n <= |ids|
    ensures forall j :: 0 <= j < n && j < |embeddings| ==>
              RagIndex.DocId(ids[j]) in AddedAll(docs, ids, metas, documents, embeddings, n)
    decreases n
  {
    if n != 0 {
      AddedAllHolds(docs, ids, metas, documents, embeddings, n - 1);
      var prev := AddedAll(docs, ids, metas, documents, embeddings, n - 1);
      var cur := AddedAll(docs, ids, metas, documents, embeddings, n);
      assert prev.Keys <= cur.Keys;
      forall j | 0 <= j < n && j < |embeddings|
        ensures RagIndex.DocId(ids[j]) in cur
      {
        if j < n - 1 {
          assert RagIndex.DocId(ids[j]) in prev;
        }
      }
    }
  }

  /** The one-by-one indexing keeps every entry already there. */
  lemma {:induction false} IndexedAllKept(docs: map<string, RagIndex.Entry>, ids: seq<int>,
                                          metas: seq<map<string, MetaValue>>, documents: seq<string>,
                                          outcomes: seq<Result<EmbeddingResult, string>>, n: nat)
    requires |metas| == |ids| && |documents| == |ids| && |outcomes| == |ids| && n <= |ids|
    ensures Kept(docs, IndexedAll(docs, ids, metas, documents, outcomes, n))
    decreases n
  {
    if n != 0 {
      IndexedAllKept(docs, ids, metas, documents, outcomes, n - 1);
      var prev := IndexedAll(docs, ids, metas, documents, outcomes, n - 1);
      KeptTransitive(docs, prev, IndexedAll(docs, ids, metas, documents, outcomes, n));
    }
  }

  /** Every product whose embedding succeeded is in the index after the
      one-by-one indexing. */
  lemma {:induction false} IndexedAllHolds(docs: map<string, RagIndex.Entry>, ids: seq<int>,
                                           metas: seq<map<string, MetaValue>>, documents: seq<string>,
                                           outcomes: seq<Result<EmbeddingResult, string>>, n: nat)
    requires |metas| == |ids| && |documents| == |ids| && |outcomes| == |ids| && n <= |ids|
    ensures forall j :: 0 <= j < n && outcomes[j].Ok? ==>
              RagIndex.DocId(ids[j]) in IndexedAll(docs, ids, metas, documents, outcomes, n)
    decreases n
  {
    if n != 0 {
      IndexedAllHolds(docs, ids, metas, documents, outcomes, n - 1);
      var prev := IndexedAll(docs, ids, metas, documents, outcomes, n - 1);
      var cur := IndexedAll(docs, ids, metas, documents, outcomes, n);
      assert prev.Keys <= cur.Keys;
      forall j | 0 <= j < n && outcomes[j].Ok?
        ensures RagIndex.DocId(ids[j]) in cur
      {
        if j < n - 1 {
          assert RagIndex.DocId(ids[j]) in prev;
        }
      }
    }
  }

  /** What bulk_index promises, on the products' ids, metadata and
      documents: one "add" result per product, in order; every entry
      already there is kept and every product reported indexed is in the
      index; nothing happens for no products; when the batch embedding
      works the i-th embedding goes with the i-th product while embeddings
      last, and otherwise each product is indexed on its own, with
      index_product's result for its own embedding. */
  ghost predicate BulkIndexed(before: map<string, RagIndex.Entry>, ids: seq<int>, metas: seq<map<string, MetaValue>>,
                              documents: seq<string>, batchApi: seq<string> -> Result<BatchEmbeddingResult, string>,
                              api: string -> Result<EmbeddingResult, string>,
                              results: seq<SyncResult>, after: map<string, RagIndex.Entry>)
  {
    && |metas| == |ids| && |documents| == |ids| && |results| == |ids|
    && (forall i :: 0 <= i < |ids| ==> results[i].productId == ids[i] && results[i].operation == "add")
    && (forall i :: 0 <= i < |ids| && results[i].success ==> RagIndex.DocId(ids[i]) in after)
    && Kept(before, after)
    && (ids == [] ==> after == before)
    && (ids != [] && BatchResult(documents, batchApi).Ok? ==>
          var embeddings := BatchResult(documents, batchApi).value.embeddings;
          && after == AddedAll(before, ids, metas, documents, embeddings, |ids|)
          && forall i :: 0 <= i < |ids| ==> results[i] == BulkOutcome(ids[i], i < |embeddings|))
    && (ids != [] && BatchResult(documents, batchApi).Err? ==>
          && after == IndexedAll(before, ids, metas, documents, Outcomes(documents, api, |ids|), |ids|)
          && forall i :: 0 <= i < |ids| ==> results[i] == IndexedResult(ids[i], EmbedText(documents[i], api)))
  }

  /** remove_product's result. */
  function RemovedResult(id: int): SyncResult
  {
    SyncResult(true, id, "delete", "Product removed from index")
  }

  /** index_product's result for an embedding outcome: the error message
      on failure, the token count on success. */
  function IndexedResult(id: int, e: Result<EmbeddingResult, string>): (r: SyncResult)
    ensures r.productId == id && r.operation == "add"
    ensures r.success <==> e.Ok?
  {
    if e.Err? then SyncResult(false, id, "add", e.error)
    else SyncResult(true, id, "add", "Product indexed with " + IntToString(e.value.tokensUsed) + " tokens")
  }

  /** One bulk-indexed product's result. */
  function BulkOutcome(id: int, embedded: bool): SyncResult
  {
    if embedded then SyncResult(true, id, "add", "Bulk indexed")
    else SyncResult(false, id, "add", "list index out of range")
  }

  /** The index after removing the documents of `ids`, one at a time. */
  function RemovedAll(m: map<string, RagIndex.Entry>, ids: seq<int>): map<string, RagIndex.Entry>
    decreases |ids|
  {
    if ids == [] then m else RemovedAll(m, ids[..|ids| - 1]) - {RagIndex.DocId(ids[|ids| - 1])}
  }

  lemma RemovedAllPrefix(m: map<string, RagIndex.Entry>, ids: seq<int>, i: int)
    requires 0 <= i < |ids|
    ensures RemovedAll(m, ids[..i + 1]) == RemovedAll(m, ids[..i]) - {RagIndex.DocId(ids[i])}
  {
    assert ids[..i + 1][..i] == ids[..i];
  }

  /** Removing one id after another removes exactly their documents. */
  lemma {:induction false} RemovedAllIsMinus(m: map<string, RagIndex.Entry>, ids: seq<int>)
    ensures RemovedAll(m, ids) == m - DocIds(ids)
    decreases |ids|
  {
    if ids != [] {
      RemovedAllIsMinus(m, ids[..|ids| - 1]);
    }
  }

  class IndexSync {
    const index: RagIndex.RagService

    constructor(index: RagIndex.RagService)
      ensures this.index == index
    {
      this.index := index;
    }

    /** index_product: embed the product's document and add it; an
        embedding failure leaves the index as it was. */
    method IndexProduct(p: M.Product, api: string -> Result<EmbeddingResult, string>, format2: real -> string)
      returns (r: SyncResult)
      modifies index
      ensures r.productId == p.id && r.operation == "add"
      ensures var e := EmbedText(Document(p, format2), api);
              && (r.success <==> e.Ok?)
              && (e.Err? ==> r.message == e.error && index.docs == old(index.docs))
              && (e.Ok? ==> r.message == "Product indexed with " + IntToString(e.value.tokensUsed) + " tokens")
              && (e.Ok? && RagIndex.DocId(p.id) !in old(index.docs) ==>
                    index.docs == old(index.docs)[RagIndex.DocId(p.id) :=
                      RagIndex.Entry(e.value.embedding, RagIndex.Sanitized(Metadata(p)), Document(p, format2))])
      ensures RagIndex.DocId(p.id) in old(index.docs) ==> index.docs == old(index.docs)
      ensures index.docs == Indexed(old(index.docs), p.id, Metadata(p), Document(p, format2), EmbedText(Document(p, format2), api))
    {
      r := IndexOne(p.id, Metadata(p), Document(p, format2), api);
    }

    /** index_product's work on the product's id, metadata and document. */
    method IndexOne(id: int, meta: map<string, MetaValue>, document: string,
                    api: string -> Result<EmbeddingResult, string>)
      returns (r: SyncResult)
      modifies index
      ensures r == IndexedResult(id, EmbedText(document, api))
      ensures index.docs == Indexed(old(index.docs), id, meta, document, EmbedText(document, api))
    {
      var e := EmbedText(document, api);
      if e.Err? {
        return SyncResult(false, id, "add", e.error);
      }
      index.AddProduct(id, e.value.embedding, meta, document);
      r := SyncResult(true, id, "add", "Product indexed with " + IntToString(e.value.tokensUsed) + " tokens");
    }

    /** reembed_product: a new embedding, metadata and document for the
        product's entry; an embedding failure changes nothing. */
    method ReembedProduct(p: M.Product, api: string -> Result<EmbeddingResult, string>, format2: real -> string)
      returns (r: SyncResult)
      modifies index
      ensures r.productId == p.id && r.operation == "re_embed"
      ensures var e := EmbedText(Document(p, format2), api);
              && (r.success <==> e.Ok?)
              && (e.Err? ==> r.message == e.error && index.docs == old(index.docs))
              && (e.Ok? && RagIndex.DocId(p.id) in old(index.docs) ==>
                    var was := old(index.docs)[RagIndex.DocId(p.id)];
                    index.docs == old(index.docs)[RagIndex.DocId(p.id) :=
                      RagIndex.Entry(e.value.embedding, was.metadata + RagIndex.Sanitized(Metadata(p)),
                                     Document(p, format2))])
      ensures RagIndex.DocId(p.id) !in old(index.docs) ==> index.docs == old(index.docs)
      ensures index.docs == Reembedded(old(index.docs), p.id, Metadata(p), Document(p, format2), EmbedText(Document(p, format2), api))
    {
      var document := Document(p, format2);
      var e := EmbedText(document, api);
      if e.Err? {
        return SyncResult(false, p.id, "re_embed", e.error);
      }
      index.UpdateProduct(p.id, Some(e.value.embedding), Some(Metadata(p)), Some(document));
      r := SyncResult(true, p.id, "re_embed",
                      "Product re-embedded with " + IntToString(e.value.tokensUsed) + " tokens");
    }

    /** update_metadata: re-embeds when a changed field feeds the embedding,
        otherwise merges the product's fresh metadata into its entry. */
    method UpdateMetadata(p: M.Product, fieldsChanged: Option<seq<string>>,
                          api: string -> Result<EmbeddingResult, string>, format2: real -> string)
      returns (r: SyncResult)
      modifies index
      ensures r.productId == p.id && r.operation == MetadataRoute(fieldsChanged).Name()
      ensures MetadataRoute(fieldsChanged) == Update ==> r.success && r.message == "Metadata updated"
      ensures MetadataRoute(fieldsChanged) == Update && RagIndex.DocId(p.id) in old(index.docs) ==>
                var was := old(index.docs)[RagIndex.DocId(p.id)];
                index.docs == old(index.docs)[RagIndex.DocId(p.id) :=
                  RagIndex.Entry(was.embedding, was.metadata + RagIndex.Sanitized(Metadata(p)), was.document)]
      ensures RagIndex.DocId(p.id) !in old(index.docs) ==> index.docs == old(index.docs)
      ensures MetadataRoute(fieldsChanged) == Update ==> index.docs == MetadataMerged(old(index.docs), p.id, Metadata(p))
      ensures MetadataRoute(fieldsChanged) == ReEmbed ==>
                var e := EmbedText(Document(p, format2), api);
                (r.success <==> e.Ok?) && index.docs == Reembedded(old(index.docs), p.id, Metadata(p), Document(p, format2), e)
    {
      if MetadataRoute(fieldsChanged) == ReEmbed {
        r := ReembedProduct(p, api, format2);
        return;
      }
      index.UpdateProduct(p.id, None, Some(Metadata(p)), None);
      r := SyncResult(true, p.id, "update", "Metadata updated");
    }

    /** remove_product. */
    method RemoveProduct(productId: int) returns (r: SyncResult)
      modifies index
      ensures r == RemovedResult(productId)
      ensures index.docs == old(index.docs) - {RagIndex.DocId(productId)}
    {
      index.DeleteProduct(productId);
      r := SyncResult(true, productId, "delete", "Product removed from index");
    }

    /** sync_product: the operation SyncRoute picks, reported under its
        own name. */
    method SyncProduct(p: M.Product, isNew: bool, isDeleted: bool, fieldsChanged: Option<seq<string>>,
                       api: string -> Result<EmbeddingResult, string>, format2: real -> string)
      returns (r: SyncResult)
      modifies index
      ensures r.productId == p.id
      ensures r.operation == SyncRoute(isNew, isDeleted, p.deletedAt.Some?, fieldsChanged).Name()
      ensures SyncRoute(isNew, isDeleted, p.deletedAt.Some?, fieldsChanged) == Delete ==>
                r.success && index.docs == old(index.docs) - {RagIndex.DocId(p.id)}
      ensures SyncRoute(isNew, isDeleted, p.deletedAt.Some?, fieldsChanged) == Add ==>
                var e := EmbedText(Document(p, format2), api);
                (r.success <==> e.Ok?) && index.docs == Indexed(old(index.docs), p.id, Metadata(p), Document(p, format2), e)
      ensures SyncRoute(isNew, isDeleted, p.deletedAt.Some?, fieldsChanged) == ReEmbed ==>
                var e := EmbedText(Document(p, format2), api);
                (r.success <==> e.Ok?) && index.docs == Reembedded(old(index.docs), p.id, Metadata(p), Document(p, format2), e)
      ensures SyncRoute(isNew, isDeleted, p.deletedAt.Some?, fieldsChanged) == Update ==>
                r.success && index.docs == MetadataMerged(old(index.docs), p.id, Metadata(p))
    {
      var route := SyncRoute(isNew, isDeleted, p.deletedAt.Some?, fieldsChanged);
      if route == Delete {
        r := RemoveProduct(p.id);
      } else if route == Add {
        r := IndexProduct(p, api, format2);
      } else if Touches(fieldsChanged, SyncEmbeddingFields) {
        r := ReembedProduct(p, api, format2);
      } else {
        r := UpdateMetadata(p, fieldsChanged, api, format2);
      }
    }

    /** bulk_remove: one removal per id, in order. */
    method BulkRemove(productIds: seq<int>) returns (results: seq<SyncResult>)
      modifies index
      ensures |results| == |productIds|
      ensures forall i :: 0 <= i < |productIds| ==> results[i] == RemovedResult(productIds[i])
      ensures index.docs == RemovedAll(old(index.docs), productIds)
    {
      results := [];
      for i := 0 to |productIds|
        invariant |results| == i
        invariant forall j :: 0 <= j < i ==> results[j] == RemovedResult(productIds[j])
        invariant index.docs == RemovedAll(old(index.docs), productIds[..i])
      {
        var r := RemoveProduct(productIds[i]);
        results := results + [r];
        RemovedAllPrefix(old(index.docs), productIds, i);
      }
      assert productIds[..|productIds|] == productIds;
    }

    /** bulk_index: nothing for no products; otherwise one batch embedding
        of all documents and one add per product, in order (a product past
        the returned embeddings fails with IndexError); when the batch
        embedding fails, each product is indexed on its own. */
    method BulkIndex(products: seq<M.Product>, batchApi: seq<string> -> Result<BatchEmbeddingResult, string>,
                     api: string -> Result<EmbeddingResult, string>, format2: real -> string)
      returns (results: seq<SyncResult>)
      modifies index
      ensures var ids := old(Ids(products));
              var metas := old(Metas(products));
              var documents := old(Documents(products, format2));
              BulkIndexed(old(index.docs), ids, metas, documents, batchApi, api, results, index.docs)
    {
      results := BulkIndexOn(Ids(products), Metas(products), Documents(products, format2), batchApi, api);
    }

    /** bulk_index on the products' ids, metadata and documents. */
    method BulkIndexOn(ids: seq<int>, metas: seq<map<string, MetaValue>>, documents: seq<string>,
                       batchApi: seq<string> -> Result<BatchEmbeddingResult, string>,
                       api: string -> Result<EmbeddingResult, string>)
      returns (results: seq<SyncResult>)
      requires |metas| == |ids| && |documents| == |ids|
      modifies index
      ensures BulkIndexed(old(index.docs), ids, metas, documents, batchApi, api, results, index.docs)
    {
      results := [];
      if ids == [] {
        return;
      }
      var batch := EmbedBatch(documents, batchApi);
      if batch.Ok? {
        results := AddEmbedded(ids, metas, batch.value.embeddings, documents);
        AddedAllHolds(old(index.docs), ids, metas, documents, batch.value.embeddings, |ids|);
        AddedAllKept(old(index.docs), ids, metas, documents, batch.value.embeddings, |ids|);
      } else {
        results := IndexEach(ids, metas, documents, api);
        IndexedAllHolds(old(index.docs), ids, metas, documents, Outcomes(documents, api, |ids|), |ids|);
        IndexedAllKept(old(index.docs), ids, metas, documents, Outcomes(documents, api, |ids|), |ids|);
        OutcomesAre(documents, api);
      }
    }

    /** One add of bulk_index's loop: the product's entry is added unless
        one is there already, and every other entry is kept. */
    method AddOne(id: int, meta: map<string, MetaValue>, embedding: seq<real>, document: string)
      modifies index
      ensures index.docs == Inserted(old(index.docs), RagIndex.DocId(id),
                                     RagIndex.Entry(embedding, RagIndex.Sanitized(meta), document))
    {
      index.AddProduct(id, embedding, meta, document);
    }

    /** bulk_index's loop over a successful batch: the i-th embedding goes
        with the i-th product. */
    method AddEmbedded(ids: seq<int>, metas: seq<map<string, MetaValue>>, embeddings: seq<seq<real>>,
                       documents: seq<string>)
      returns (results: seq<SyncResult>)
      requires |metas| == |ids| && |documents| == |ids|
      modifies index
      ensures |results| == |ids|
      ensures forall i :: 0 <= i < |ids| ==> results[i] == BulkOutcome(ids[i], i < |embeddings|)
      ensures index.docs == AddedAll(old(index.docs), ids, metas, documents, embeddings, |ids|)
    {
      results := [];
      for i := 0 to |ids|
        invariant |results| == i
        invariant forall j :: 0 <= j < i ==> results[j] == BulkOutcome(ids[j], j < |embeddings|)
        invariant index.docs == AddedAll(old(index.docs), ids, metas, documents, embeddings, i)
      {
        results := EmbeddedStep(ids, metas, embeddings, documents, i, old(index.docs), results);
      }
    }

    /** One turn of AddEmbedded's loop: the i-th product is added when it
        has an embedding, and its outcome is appended. */
    method EmbeddedStep(ids: seq<int>, metas: seq<map<string, MetaValue>>, embeddings: seq<seq<real>>,
                        documents: seq<string>, i: nat, ghost start: map<string, RagIndex.Entry>,
                        results: seq<SyncResult>)
      returns (next: seq<SyncResult>)
      requires |metas| == |ids| && |documents| == |ids| && i < |ids|
      requires |results| == i
      requires forall j :: 0 <= j < i ==> results[j] == BulkOutcome(ids[j], j < |embeddings|)
      requires index.docs == AddedAll(start, ids, metas, documents, embeddings, i)
      modifies index
      ensures next == results + [BulkOutcome(ids[i], i < |embeddings|)]
      ensures forall j :: 0 <= j < i + 1 ==> next[j] == BulkOutcome(ids[j], j < |embeddings|)
      ensures index.docs == AddedAll(start, ids, metas, documents, embeddings, i + 1)
    {
      if i < |embeddings| {
        AddOne(ids[i], metas[i], embeddings[i], documents[i]);
      }
      next := results + [BulkOutcome(ids[i], i < |embeddings|)];
    }

    /** bulk_index's fallback: index_product for each product in turn,
        on the products' ids, metadata and documents. */
    method IndexEach(ids: seq<int>, metas: seq<map<string, MetaValue>>, documents: seq<string>,
                     api: string -> Result<EmbeddingResult, string>)
      returns (results: seq<SyncResult>)
      requires |metas| == |ids| && |documents| == |ids|
      modifies index
      ensures |results| == |ids|
      ensures forall i :: 0 <= i < |ids| ==> results[i] == IndexedResult(ids[i], Outcomes(documents, api, |ids|)[i])
      ensures index.docs == IndexedAll(old(index.docs), ids, metas, documents, Outcomes(documents, api, |ids|), |ids|)
    {
      ghost var outcomes := Outcomes(documents, api, |ids|);
      results := [];
      for i := 0 to |ids|
        invariant |results| == i
        invariant forall j :: 0 <= j < i ==> results[j] == IndexedResult(ids[j], outcomes[j])
        invariant index.docs == IndexedAll(old(index.docs), ids, metas, documents, outcomes, i)
      {
        OutcomeAt(documents, api, |ids|, i);
        var r := IndexOne(ids[i], metas[i], documents[i], api);
        results := results + [r];
      }
    }
  }
}
