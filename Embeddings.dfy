/** The embedding side of the product index (rag/embeddings.py): the empty
    text guards, batch filtering and chunking around the embedding API, and
    the document text and metadata built for each product. The API itself
    is a parameter. */
module Embeddings {
  import opened Common

  const Model := "text-embedding-3-small"
  const MaxBatchSize := 100

  const EmptyText := "Cannot embed empty text"
  const EmptyList := "Cannot embed empty text list"
  const AllEmpty := "All texts are empty"

  /** A Python value as it may sit in a metadata dict: the four kinds the
      index stores, None, or anything else (with its str()). */
  datatype MetaValue =
    | MNone
    | MStr(s: string)
    | MInt(i: int)
    | MFloat(x: real)
    | MBool(b: bool)
    | MOther(text: string)

  datatype EmbeddingResult = EmbeddingResult(embedding: seq<real>, model: string, tokensUsed: int)

  datatype BatchEmbeddingResult = BatchEmbeddingResult(embeddings: seq<seq<real>>, model: string, totalTokens: int)

  /** `not text or not text.strip()`. */
  predicate Blank(text: string)
  {
    forall i :: 0 <= i < |text| ==> IsSpace(text[i])
  }

  /** Blank is `not text or not text.strip()`: stripping leaves nothing. */
  lemma BlankIsStripEmpty(text: string)
    ensures Blank(text) <==> Strip(text) == []
  {
  }

  // ---------------------------------------------------------------
  // Single texts
  // ---------------------------------------------------------------

  /** embed / embed_async: a blank text is refused before the API is asked;
      an API failure is wrapped. */
  function EmbedText(text: string, api: string -> Result<EmbeddingResult, string>): (r: Result<EmbeddingResult, string>)
    ensures Blank(text) ==> r == Err(EmptyText)
    ensures !Blank(text) ==> (r.Ok? <==> api(text).Ok?)
    ensures !Blank(text) && r.Ok? ==> r == api(text)
    ensures !Blank(text) && r.Err? ==> r.error == "Failed to generate embedding: " + api(text).error
  {
    if Blank(text) then Err(EmptyText)
    else match api(text)
      case Ok(e) => Ok(e)
      case Err(msg) => Err("Failed to generate embedding: " + msg)
  }

  // ---------------------------------------------------------------
  // Batches
  // ---------------------------------------------------------------

  /** `[t for t in texts if t and t.strip()]`. */
  function NonBlank(texts: seq<string>): (r: seq<string>)
    ensures |r| <= |texts|
    ensures forall i :: 0 <= i < |r| ==> !Blank(r[i])
    ensures forall t :: t in texts && !Blank(t) ==> t in r
    ensures forall t :: t in r ==> t in texts
    ensures |texts| == 1 ==> r == (if Blank(texts[0]) then [] else texts)
  {
    if texts == [] then []
    else
      var rest := NonBlank(texts[1..]);
      assert forall t :: t in texts ==> t == texts[0] || t in texts[1..];
      if Blank(texts[0]) then rest else [texts[0]] + rest
  }

  /** Dropping blank texts keeps the order: the kept texts of a list are
      the kept texts of its first part followed by those of the rest. */
  lemma {:induction false} NonBlankAppend(a: seq<string>, b: seq<string>)
    ensures NonBlank(a + b) == NonBlank(a) + NonBlank(b)
    decreases |a|
  {
    if a == [] {
      assert a + b == b;
    } else {
      var t := a[1..];
      var h := if Blank(a[0]) then [] else [a[0]];
      NonBlankAppend(t, b);
      NonBlankCons(a[0], t + b);
      NonBlankCons(a[0], t);
      HeadTail(a, b);
      Assoc(h, NonBlank(t), NonBlank(b));
    }
  }

  lemma HeadTail(a: seq<string>, b: seq<string>)
    requires a != []
    ensures a + b == [a[0]] + (a[1..] + b) && a == [a[0]] + a[1..]
  {
  }

  lemma Assoc(x: seq<string>, y: seq<string>, z: seq<string>)
    ensures x + (y + z) == (x + y) + z
  {
  }

  lemma NonBlankCons(x: string, rest: seq<string>)
    ensures NonBlank([x] + rest) == (if Blank(x) then [] else [x]) + NonBlank(rest)
  {
    assert ([x] + rest)[1..] == rest;
  }

  /** Every non-blank text is kept as many times as it occurs. */
  lemma {:induction false} NonBlankCounts(texts: seq<string>, t: string)
    requires !Blank(t)
    ensures multiset(NonBlank(texts))[t] == multiset(texts)[t]
    decreases |texts|
  {
    if texts != [] {
      NonBlankCounts(texts[1..], t);
      assert texts == [texts[0]] + texts[1..];
      assert multiset(texts) == multiset{texts[0]} + multiset(texts[1..]);
      if !Blank(texts[0]) {
        assert multiset(NonBlank(texts)) == multiset{texts[0]} + multiset(NonBlank(texts[1..]));
      }
    }
  }

  /** The texts in chunks of MaxBatchSize, in order; only the last may be
      shorter. */
  function Chunks(texts: seq<string>): (r: seq<seq<string>>)
    ensures forall i :: 0 <= i < |r| ==> 0 < |r[i]| <= MaxBatchSize
    ensures forall i :: 0 <= i < |r| - 1 ==> |r[i]| == MaxBatchSize
    decreases |texts|
  {
    if texts == [] then []
    else if |texts| <= MaxBatchSize then [texts]
    else [texts[..MaxBatchSize]] + Chunks(texts[MaxBatchSize..])
  }

  function Flatten(chunks: seq<seq<string>>): seq<string>
  {
    if chunks == [] then [] else chunks[0] + Flatten(chunks[1..])
  }

  /** Chunking loses and reorders nothing. */
  lemma {:induction false} ChunksCover(texts: seq<string>)
    ensures Flatten(Chunks(texts)) == texts
    decreases |texts|
  {
    if |texts| > MaxBatchSize {
      ChunksCover(texts[MaxBatchSize..]);
      assert texts[..MaxBatchSize] + texts[MaxBatchSize..] == texts;
    }
  }

  /** Appending a chunk's worth to a whole number of chunks adds one chunk. */
  lemma {:induction false} ChunksAppend(a: seq<string>, b: seq<string>)
    requires |a| % MaxBatchSize == 0 && 0 < |b| <= MaxBatchSize
    ensures Chunks(a + b) == Chunks(a) + [b]
    decreases |a|
  {
    if a == [] {
      assert a + b == b;
    } else {
      ChunksAppend(a[MaxBatchSize..], b);
      assert (a + b)[..MaxBatchSize] == a[..MaxBatchSize];
      assert (a + b)[MaxBatchSize..] == a[MaxBatchSize..] + b;
    }
  }

  /** The API's answers for the chunks, in order, concatenated: the first
      failure stops everything. */
  function Combined(chunks: seq<seq<string>>, api: seq<string> -> Result<BatchEmbeddingResult, string>)
    : (r: Result<BatchEmbeddingResult, string>)
    ensures chunks == [] ==> r == Ok(BatchEmbeddingResult([], Model, 0))
  {
    if chunks == [] then Ok(BatchEmbeddingResult([], Model, 0))
    else match Combined(chunks[..|chunks| - 1], api)
      case Err(e) => Err(e)
      case Ok(acc) =>
        match api(chunks[|chunks| - 1])
        case Err(e) => Err(e)
        case Ok(b) => Ok(BatchEmbeddingResult(acc.embeddings + b.embeddings, b.model, acc.totalTokens + b.totalTokens))
  }

  /** Every chunk answered means the combined batch holds each chunk's
      embeddings in order and the sum of the tokens. */
  lemma {:induction false} CombinedSums(chunks: seq<seq<string>>, api: seq<string> -> Result<BatchEmbeddingResult, string>)
    requires forall i :: 0 <= i < |chunks| ==> api(chunks[i]).Ok?
    ensures Combined(chunks, api).Ok?
    ensures |Combined(chunks, api).value.embeddings| == SumEmbeddings(chunks, api)
    ensures Combined(chunks, api).value.totalTokens == SumTokens(chunks, api)
  {
    if chunks != [] {
      CombinedSums(chunks[..|chunks| - 1], api);
    }
  }

  function SumTokens(chunks: seq<seq<string>>, api: seq<string> -> Result<BatchEmbeddingResult, string>): int
    requires forall i :: 0 <= i < |chunks| ==> api(chunks[i]).Ok?
  {
    if chunks == [] then 0
    else SumTokens(chunks[..|chunks| - 1], api) + api(chunks[|chunks| - 1]).value.totalTokens
  }

  function SumEmbeddings(chunks: seq<seq<string>>, api: seq<string> -> Result<BatchEmbeddingResult, string>): nat
    requires forall i :: 0 <= i < |chunks| ==> api(chunks[i]).Ok?
  {
    if chunks == [] then 0
    else SumEmbeddings(chunks[..|chunks| - 1], api) + |api(chunks[|chunks| - 1]).value.embeddings|
  }

  /** _embed_batch_chunked: one API call per chunk of at most MaxBatchSize
      texts, in order, extending the embeddings and adding up the tokens. */
  method EmbedChunked(texts: seq<string>, api: seq<string> -> Result<BatchEmbeddingResult, string>)
    returns (r: Result<BatchEmbeddingResult, string>)
    ensures r == Combined(Chunks(texts), api)
  {
    var all: seq<seq<real>> := [];
    var total := 0;
    var model := Model;
    var i := 0;
    while i < |texts|
      invariant 0 <= i <= |texts| && (i % MaxBatchSize == 0 || i == |texts|)
      invariant Combined(Chunks(texts[..i]), api) == Ok(BatchEmbeddingResult(all, model, total))
      decreases |texts| - i
    {
      var next := Min(i + MaxBatchSize, |texts|);
      var chunk := texts[i..next];
      ChunkStep(texts, i, next);
      var response := api(chunk);
      CombinedSnoc(Chunks(texts[..i]), chunk, api);
      if response.Err? {
        ChunksOfPrefix(texts, next);
        PrefixFailureStops(Chunks(texts[..next]), Chunks(texts), api);
        return Err(response.error);
      }
      all := all + response.value.embeddings;
      total := total + response.value.totalTokens;
      model := response.value.model;
      i := next;
    }
    assert texts[..i] == texts;
    r := Ok(BatchEmbeddingResult(all, model, total));
  }

  /** One chunk of EmbedChunked: the chunks up to `next` are those up to
      `i` and the chunk between. */
  lemma ChunkStep(texts: seq<string>, i: nat, next: nat)
    requires i < |texts| && i % MaxBatchSize == 0 && next == Min(i + MaxBatchSize, |texts|)
    ensures next % MaxBatchSize == 0 || next == |texts|
    ensures Chunks(texts[..next]) == Chunks(texts[..i]) + [texts[i..next]]
  {
    WholeChunks(i, |texts|, next);
    ChunksAppend(texts[..i], texts[i..next]);
    assert texts[..i] + texts[i..next] == texts[..next];
  }

  /** The next chunk boundary after a whole number of chunks is again one,
      or the end. */
  lemma WholeChunks(i: nat, n: nat, next: nat)
    requires i < n && i % MaxBatchSize == 0 && next == Min(i + MaxBatchSize, n)
    ensures next % MaxBatchSize == 0 || next == n
    ensures 0 < next - i <= MaxBatchSize
  {
  }

  /** Combined over one more chunk, after chunks that all succeeded. */
  lemma CombinedSnoc(pre: seq<seq<string>>, c: seq<string>, api: seq<string> -> Result<BatchEmbeddingResult, string>)
    requires Combined(pre, api).Ok?
    ensures api(c).Err? ==> Combined(pre + [c], api) == Err(api(c).error)
    ensures api(c).Ok? ==>
              var acc := Combined(pre, api).value;
              var b := api(c).value;
              Combined(pre + [c], api)
              == Ok(BatchEmbeddingResult(acc.embeddings + b.embeddings, b.model, acc.totalTokens + b.totalTokens))
  {
    assert (pre + [c])[..|pre|] == pre;
  }

  /** Once a prefix of the chunks fails, the whole run fails the same way. */
  lemma {:induction false} PrefixFailureStops(pre: seq<seq<string>>, chunks: seq<seq<string>>,
                                              api: seq<string> -> Result<BatchEmbeddingResult, string>)
    requires pre <= chunks && Combined(pre, api).Err?
    ensures Combined(chunks, api) == Combined(pre, api)
    decreases |chunks|
  {
    if |chunks| > |pre| {
      assert pre <= chunks[..|chunks| - 1];
      PrefixFailureStops(pre, chunks[..|chunks| - 1], api);
    } else {
      assert pre == chunks;
    }
  }

  /** The chunks of a prefix of whole chunks are a prefix of the chunks. */
  lemma {:induction false} ChunksOfPrefix(texts: seq<string>, i: nat)
    requires i <= |texts| && (i % MaxBatchSize == 0 || i == |texts|)
    ensures Chunks(texts[..i]) <= Chunks(texts)
    decreases i
  {
    if i > MaxBatchSize || (i == |texts| && i > 0) {
      if i == |texts| {
        assert texts[..i] == texts;
      } else {
        ChunksOfPrefix(texts[MaxBatchSize..], i - MaxBatchSize);
        assert texts[..i][..MaxBatchSize] == texts[..MaxBatchSize];
        assert texts[..i][MaxBatchSize..] == texts[MaxBatchSize..][..i - MaxBatchSize];
      }
    } else if i == MaxBatchSize {
      assert texts[..i][..MaxBatchSize] == texts[..MaxBatchSize];
    }
  }

  /** embed_batch / embed_batch_async: an empty list and a list of blank
      texts are refused; blank texts are dropped; more than MaxBatchSize
      texts go through the chunked path, whose API errors pass through
      unwrapped; otherwise one call, whose error is wrapped. Its result is
      BatchResult, whose own ensures carry these promises. */
  method EmbedBatch(texts: seq<string>, api: seq<string> -> Result<BatchEmbeddingResult, string>)
    returns (r: Result<BatchEmbeddingResult, string>)
    ensures r == BatchResult(texts, api)
    ensures texts == [] ==> r == Err(EmptyList)
    ensures texts != [] && NonBlank(texts) == [] ==> r == Err(AllEmpty)
    ensures 0 < |NonBlank(texts)| <= MaxBatchSize ==>
              r == (match api(NonBlank(texts))
                    case Ok(b) => Ok(b)
                    case Err(e) => Err("Failed to generate batch embeddings: " + e))
    ensures |NonBlank(texts)| > MaxBatchSize ==> r == Combined(Chunks(NonBlank(texts)), api)
  {
    if texts == [] {
      return Err(EmptyList);
    }
    var valid := NonBlank(texts);
    if valid == [] {
      return Err(AllEmpty);
    }
    if |valid| > MaxBatchSize {
      r := EmbedChunked(valid, api);
      return;
    }
    match api(valid)
    case Ok(b) => r := Ok(b);
    case Err(e) => r := Err("Failed to generate batch embeddings: " + e);
  }

  /** What embed_batch returns, case by case as EmbedBatch states them. */
  function BatchResult(texts: seq<string>, api: seq<string> -> Result<BatchEmbeddingResult, string>)
    : Result<BatchEmbeddingResult, string>
  {
    if texts == [] then Err(EmptyList)
    else if NonBlank(texts) == [] then Err(AllEmpty)
    else if |NonBlank(texts)| > MaxBatchSize then Combined(Chunks(NonBlank(texts)), api)
    else match api(NonBlank(texts))
      case Ok(b) => Ok(b)
      case Err(e) => Err("Failed to generate batch embeddings: " + e)
  }

  /** At most one chunk: the chunked path makes the same single call. */
  lemma SmallBatchIsOneChunk(texts: seq<string>)
    requires 0 < |texts| <= MaxBatchSize
    ensures Chunks(texts) == [texts]
  {
  }

  // ---------------------------------------------------------------
  // Document and metadata
  // ---------------------------------------------------------------

  /** The segments of create_product_document; `format2(x)` is x with two
      decimals. */
  function DocumentParts(name: string, brand: Option<string>, store: Option<string>, price: Option<real>,
                         currency: string, format2: real -> string): (parts: seq<string>)
    ensures parts != [] && parts[0] == name
    ensures |parts| == 1 + (if TruthyText(brand) then 1 else 0) + (if TruthyText(store) then 1 else 0)
                         + (if price.Some? then 1 else 0)
  {
    [name]
    + (if TruthyText(brand) then ["Brand: " + brand.value] else [])
    + (if TruthyText(store) then ["Store: " + store.value] else [])
    + (if price.Some? then ["Price: " + currency + " " + format2(price.value)] else [])
  }

  /** The joined segments, written out. */
  lemma JoinedParts(name: string, brand: Option<string>, store: Option<string>, price: Option<real>,
                    currency: string, format2: real -> string)
    ensures Join(DocumentParts(name, brand, store, price, currency, format2), " | ")
            == name
               + (if TruthyText(brand) then " | " + "Brand: " + brand.value else "")
               + (if TruthyText(store) then " | " + "Store: " + store.value else "")
               + (if price.Some? then " | " + "Price: " + currency + " " + format2(price.value) else "")
  {
    var bs := if TruthyText(brand) then ["Brand: " + brand.value] else [];
    var ss := if TruthyText(store) then ["Store: " + store.value] else [];
    var ps := if price.Some? then ["Price: " + currency + " " + format2(price.value)] else [];
    assert DocumentParts(name, brand, store, price, currency, format2) == [name] + (bs + ss + ps);
    JoinOptional(name, bs, ss, ps, " | ");
    var b := if TruthyText(brand) then " | " + "Brand: " + brand.value else "";
    var s := if TruthyText(store) then " | " + "Store: " + store.value else "";
    var p := if price.Some? then " | " + "Price: " + currency + " " + format2(price.value) else "";
    assert Prefixed(bs, " | ") == b by {
      if TruthyText(brand) {
        PrefixedOne("Brand: " + brand.value, " | ");
        Assoc3(" | ", "Brand: ", brand.value);
      }
    }
    assert Prefixed(ss, " | ") == s by {
      if TruthyText(store) {
        PrefixedOne("Store: " + store.value, " | ");
        Assoc3(" | ", "Store: ", store.value);
      }
    }
    assert Prefixed(ps, " | ") == p by {
      if price.Some? {
        var f := format2(price.value);
        PrefixedOne("Price: " + currency + " " + f, " | ");
        Assoc3(" | ", "Price: " + currency + " ", f);
        Assoc3(" | ", "Price: " + currency, " ");
        Assoc3(" | ", "Price: ", currency);
      }
    }
  }

  lemma Assoc3(a: string, b: string, c: string)
    ensures a + (b + c) == a + b + c
  {
  }

  /** The name joined with at most one part from each of three lists. */
  lemma JoinOptional(name: string, x: seq<string>, y: seq<string>, z: seq<string>, sep: string)
    ensures Join([name] + (x + y + z), sep) == name + Prefixed(x, sep) + Prefixed(y, sep) + Prefixed(z, sep)
  {
    var xyz := x + y + z;
    JoinCons(name, xyz, sep);
    PrefixedAppend(x + y, z, sep);
    PrefixedAppend(x, y, sep);
    StringAssoc(name, Prefixed(x, sep), Prefixed(y, sep), Prefixed(z, sep));
  }

  lemma StringAssoc(w: string, a: string, b: string, c: string)
    ensures w + ((a + b) + c) == w + a + b + c
  {
  }

  /** create_product_document: the name, then " | Brand: ", " | Store: "
      and " | Price: " segments for exactly the fields that are set, in that
      order. */
  function ProductDocument(name: string, brand: Option<string>, store: Option<string>, price: Option<real>,
                           currency: string, format2: real -> string): (r: string)
    ensures r ==
              name
              + (if TruthyText(brand) then " | " + "Brand: " + brand.value else "")
              + (if TruthyText(store) then " | " + "Store: " + store.value else "")
              + (if price.Some? then " | " + "Price: " + currency + " " + format2(price.value) else "")
  {
    JoinedParts(name, brand, store, price, currency, format2);
    Join(DocumentParts(name, brand, store, price, currency, format2), " | ")
  }

  /** The keys create_product_metadata may write. */
  const MetadataKeys: set<string> := {"product_id", "name", "store_domain", "in_stock", "current_price", "brand", "upc"}

  /** create_product_metadata: id, name, store and stock always; the price
      when known; brand and UPC when non-empty. */
  function ProductMetadata(productId: int, name: string, storeDomain: string, currentPrice: Option<real>,
                           inStock: bool, brand: Option<string>, upc: Option<string>): (r: map<string, MetaValue>)
    ensures r.Keys <= MetadataKeys
    ensures "product_id" in r && r["product_id"] == MInt(productId)
    ensures "name" in r && r["name"] == MStr(name)
    ensures "store_domain" in r && r["store_domain"] == MStr(storeDomain)
    ensures "in_stock" in r && r["in_stock"] == MBool(inStock)
    ensures "current_price" in r <==> currentPrice.Some?
    ensures "current_price" in r ==> r["current_price"] == MFloat(currentPrice.value)
    ensures "brand" in r <==> TruthyText(brand)
    ensures "brand" in r ==> r["brand"] == MStr(brand.value)
    ensures "upc" in r <==> TruthyText(upc)
    ensures "upc" in r ==> r["upc"] == MStr(upc.value)
    ensures forall k :: k in r ==> !r[k].MNone? && !r[k].MOther?
  {
    var m := map["product_id" := MInt(productId), "name" := MStr(name), "store_domain" := MStr(storeDomain),
                 "in_stock" := MBool(inStock)];
    var m1 := if currentPrice.Some? then m["current_price" := MFloat(currentPrice.value)] else m;
    var m2 := if TruthyText(brand) then m1["brand" := MStr(brand.value)] else m1;
    if TruthyText(upc) then m2["upc" := MStr(upc.value)] else m2
  }
}
