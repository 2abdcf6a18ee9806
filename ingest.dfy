/** The two `process_and_store_embeddings` drivers. src/ollama_utils/ingest.py:83-160 groups
    the pages by NPC and stores one synthesized document per NPC; src/ollama/ingest.py:73-103
    stores the cached pages themselves. Both upsert under `doc_0..doc_{n-1}` into the
    collection `notion_<database id>`. */
module Ingest {
  import opened Wrappers
  import opened Values
  import opened Text
  import opened Metadata
  import opened Synthesis
  import opened Embeddings
  import opened VectorStore
  import opened Cache
  import opened Download

  /** The three lists handed to the store: texts, vectors and metadata. */
  datatype Batch = Batch(documents: seq<string>, embeddings: seq<seq<real>>, metadata: seq<Value>)

  /** How one run ends: the batch it upserted into `collection` together with the "skipped"
      count it logs, an early return with nothing stored, or the exception it raised. */
  datatype Outcome =
    | Ingested(collection: string, batch: Batch, skipped: int)
    | NoDocuments
    | Failed(fault: Fault)

  /** `f"notion_{database_id}"`. */
  function CollectionName(databaseId: string): string {
    "notion_" + databaseId
  }

  /** Different databases never share a collection. */
  lemma CollectionNameInjective(a: string, b: string)
    ensures CollectionName(a) == CollectionName(b) <==> a == b
  {
    if CollectionName(a) == CollectionName(b) {
      assert CollectionName(a)[7..] == a;
      assert CollectionName(b)[7..] == b;
    }
  }

  /** `[doc.metadata for doc in valid_docs]`. */
  function Metadatas(ds: seq<Document>): seq<Value> {
    seq(|ds|, i requires 0 <= i < |ds| => ds[i].metadata)
  }

  /** `valid_docs = [docs[i] for i in valid_indices]` and its two projections, paired with the
      vectors: the k-th text and metadata are those of the document at the k-th kept index. */
  function BatchOf(docs: seq<Document>, e: Embedded): (b: Batch)
    requires |e.vectors| == |e.indices| && forall k | 0 <= k < |e.indices| :: e.indices[k] < |docs|
    ensures Aligned(b.documents, b.embeddings, b.metadata) && b.embeddings == e.vectors
    ensures forall k | 0 <= k < |e.indices| ::
              b.documents[k] == docs[e.indices[k]].pageContent && b.metadata[k] == docs[e.indices[k]].metadata
  {
    var valid := Select(docs, e.indices);
    Batch(Contents(valid), e.vectors, Metadatas(valid))
  }

  /** A run that stored something stored three lists of the same length. */
  predicate Storable(out: Outcome) {
    out.Ingested? ==> Aligned(out.batch.documents, out.batch.embeddings, out.batch.metadata)
  }

  /** The collection `name` as `get_or_create_collection` hands it out. */
  function Existing(cs: map<string, Collection>, name: string): Collection {
    if name in cs then cs[name] else map[]
  }

  /** The server's collections after a run: a stored batch is upserted into its collection,
      created empty if it was missing; any other ending leaves every collection as it was. */
  function After(cs: map<string, Collection>, out: Outcome): map<string, Collection>
    requires Storable(out)
  {
    match out
    case Ingested(name, b, _) => cs[name := Stored(Existing(cs, name), b.documents, b.embeddings, b.metadata)]
    case _ => cs
  }

  // ---------------------------------------------------------------------------
  // src/ollama_utils/ingest.py: one document per NPC

  /** Lines 91-160 once the documents are at hand: repair, group (raising what the first bad
      `About NPC` raises), synthesize, embed (`ValueError` when no vector is usable), and store
      the kept synthesized documents. The skip count is that of lines 132-134. */
  function SynthesisOutcome(databaseId: string, docs: seq<Document>, embed: Embedder): (r: Outcome)
    requires AllNamesText(docs)
    ensures Storable(r) && !r.NoDocuments?
  {
    var repaired := RepairAll(docs);
    if !Groupable(repaired) then Failed(FirstFault(repaired))
    else
      var synthesized := Synthesized(repaired);
      var e := Kept(synthesized, embed);
      if |e.indices| == 0 then Failed(ValueError)
      else Ingested(CollectionName(databaseId), BatchOf(synthesized, e), SkippedCount(repaired))
  }

  /** What `extract_notion_docs(database_id)` of src/notion/download.py returns. */
  function Fetched(client: Client, apiKey: Option<string>, databaseId: string, bound: nat): Option<seq<Document>>
    requires HasKey(apiKey) ==> Runs(client, databaseId, None, bound)
  {
    if HasKey(apiKey) then Fetch(client, databaseId, None, bound) else None
  }

  /** `docs = ensure_valid_metadata(docs)`: the documents are repaired where they stand and
      the same list is returned. */
  method Repair(documents: seq<Document>) returns (repaired: seq<Document>)
    requires AllNamesText(documents)
    ensures repaired == RepairAll(documents)
  {
    var a := new Document[|documents|](i requires 0 <= i < |documents| => documents[i]);
    assert a[..] == documents;
    EnsureValidMetadata(a);
    repaired := a[..];
  }

  /** Lines 148-156 (and 91-100 of src/ollama/ingest.py): get or create `notion_<id>` and
      upsert the batch into it. */
  method StoreBatch(chroma: Chroma, out: Outcome)
    requires out.Ingested? && Storable(out)
    modifies chroma
    ensures chroma.collections == After(old(chroma.collections), out)
  {
    var collection := chroma.GetOrCreateCollection(out.collection);
    UpsertAfterCreate(old(chroma.collections), chroma.collections, out);
    var ok := chroma.StoreEmbeddings(collection, out.batch.documents, out.batch.embeddings, out.batch.metadata);
    assert ok;
  }

  /** Lines 91-100 of src/ollama/ingest.py: read the existing ids of `notion_<id>` (unused),
      then upsert the batch into it. */
  method StoreBatchByName(chroma: Chroma, out: Outcome)
    requires out.Ingested? && Storable(out)
    modifies chroma
    ensures chroma.collections == After(old(chroma.collections), out)
  {
    var collection := chroma.GetOrCreateCollection(out.collection);
    var existingIds := chroma.ExistingIds(collection);
    UpsertAfterCreate(old(chroma.collections), chroma.collections, out);
    var ok := chroma.StoreEmbeddings(collection, out.batch.documents, out.batch.embeddings, out.batch.metadata);
    assert ok;
  }

  /** Upserting into the collection `get_or_create_collection` handed out is `After`. */
  lemma UpsertAfterCreate(cs: map<string, Collection>, created: map<string, Collection>, out: Outcome)
    requires out.Ingested? && Storable(out)
    requires (out.collection in cs && created == cs) || (out.collection !in cs && created == cs[out.collection := map[]])
    ensures out.collection in created && created[out.collection] == Existing(cs, out.collection)
    ensures var b := out.batch;
            created[out.collection := Stored(created[out.collection], b.documents, b.embeddings, b.metadata)]
            == After(cs, out)
  {
  }

  /** Lines 91-146: repair, group, synthesize, count the skipped documents and embed. */
  method Synthesize(databaseId: string, documents: seq<Document>, embed: Embedder) returns (out: Outcome)
    requires AllNamesText(documents)
    ensures out == SynthesisOutcome(databaseId, documents, embed)
  {
    var repaired := Repair(documents);
    var grouped := GroupByNpc(repaired);
    if grouped.Err? {
      return Failed(grouped.error);
    }
    assert Groupable(repaired) && grouped.value == GroupsOf(repaired);
    var synthesized := SynthesizeAll(grouped.value);
    SynthesizedIs(repaired, synthesized);
    var skipped := |repaired| - GroupedTotal(grouped.value.keys, grouped.value.members);
    assert skipped == SkippedCount(repaired);
    var embedded := CreateEmbeddings(synthesized, embed);
    if embedded.Err? {
      return Failed(embedded.error);
    }
    var e := embedded.value;
    assert e == Kept(synthesized, embed) && |e.indices| > 0;
    var valid := Select(synthesized, e.indices);
    assert Batch(Contents(valid), e.vectors, Metadatas(valid)) == BatchOf(synthesized, e);
    out := Ingested(CollectionName(databaseId), Batch(Contents(valid), e.vectors, Metadatas(valid)), skipped);
  }

  /** Lines 83-160 of src/ollama_utils/ingest.py. Without documents they are downloaded;
      a failed download (`None`) makes `len(docs)` at line 89 raise `TypeError`. The
      collection is only created once the embeddings exist. */
  method ProcessAndStoreSynthesized(chroma: Chroma, client: Client, apiKey: Option<string>,
                                    databaseId: string, docs: Option<seq<Document>>,
                                    embed: Embedder, ghost bound: nat)
    returns (out: Outcome)
    requires docs.Some? ==> AllNamesText(docs.value)
    requires docs.None? && HasKey(apiKey) ==> Runs(client, databaseId, None, bound)
    modifies chroma
    ensures var input := if docs.Some? then docs else Fetched(client, apiKey, databaseId, bound);
            && (input.None? ==> out == Failed(TypeError))
            && (input.Some? ==> AllNamesText(input.value) && out == SynthesisOutcome(databaseId, input.value, embed))
    ensures Storable(out) && chroma.collections == After(old(chroma.collections), out)
  {
    var input := docs;
    if input.None? {
      input := ExtractNotionDocs(client, apiKey, databaseId, bound);
      if input.None? {
        return Failed(TypeError);
      }
      forall i | 0 <= i < |input.value|
        ensures NameIsText(input.value[i].metadata)
      {
        FetchedMetadata(client, databaseId, None, bound, i);
      }
    }
    out := Synthesize(databaseId, input.value, embed);
    if out.Ingested? {
      StoreBatch(chroma, out);
    }
  }

  /** Lines 139-156: the k-th stored text is the newline-joined text of some NPC's group, its
      metadata is that NPC's synthesized metadata with a count of at least one, and its vector
      is the non-empty one the model returned for that text. */
  lemma SynthesisBatchPairs(databaseId: string, docs: seq<Document>, embed: Embedder, k: nat)
    requires AllNamesText(docs)
    requires SynthesisOutcome(databaseId, docs, embed).Ingested?
    requires k < |SynthesisOutcome(databaseId, docs, embed).batch.documents|
    ensures var out := SynthesisOutcome(databaseId, docs, embed);
            var repaired := RepairAll(docs);
            var e := Kept(Synthesized(repaired), embed);
            && k < |e.indices| && e.indices[k] < |Distinct(AllNames(repaired))|
            && var npc := Distinct(AllNames(repaired))[e.indices[k]];
               var group := Members(repaired, npc);
               && out.collection == CollectionName(databaseId)
               && |group| >= 1
               && out.batch.documents[k] == Join("\n", Contents(group))
               && out.batch.metadata[k]
                  == VDict(map[AboutNpc := npc, "document_count" := VInt(|group|), "source" := VStr("synthesized")])
               && embed(out.batch.documents[k]) == Returned(out.batch.embeddings[k])
               && |out.batch.embeddings[k]| > 0
  {
    var repaired := RepairAll(docs);
    var synthesized := Synthesized(repaired);
    var e := Kept(synthesized, embed);
    SynthesizedContents(repaired, e.indices[k]);
  }

  /** Lines 99-139: the run raises exactly when grouping raises (the first bad document's
      exception) or when no synthesized document gets a usable vector (`ValueError`). */
  lemma SynthesisRaises(databaseId: string, docs: seq<Document>, embed: Embedder)
    requires AllNamesText(docs)
    ensures var out := SynthesisOutcome(databaseId, docs, embed);
            var repaired := RepairAll(docs);
            && (!Groupable(repaired) ==> out == Failed(FirstFault(repaired)))
            && (Groupable(repaired) ==>
                  (out.Failed? <==> forall i | 0 <= i < |Synthesized(repaired)| ::
                                      !Usable(embed(Synthesized(repaired)[i].pageContent))))
            && (out.Failed? && Groupable(repaired) ==> out.fault == ValueError)
  {
    NothingKept(Synthesized(RepairAll(docs)), embed);
  }

  /** With no page about any NPC (including no page at all) there is nothing to embed, and
      `create_embeddings` raises `ValueError`: nothing is stored. */
  lemma NoNpcNothingStored(databaseId: string, docs: seq<Document>, embed: Embedder)
    requires AllNamesText(docs) && Groupable(RepairAll(docs)) && AllNames(RepairAll(docs)) == []
    ensures SynthesisOutcome(databaseId, docs, embed) == Failed(ValueError)
  {
    var repaired := RepairAll(docs);
    assert Distinct(AllNames(repaired)) == [];
    assert Synthesized(repaired) == [];
  }

  /** Lines 132-137: the logged "skipped" count is the number of documents minus the number of
      (document, NPC) visits; it is negative as soon as pages about several NPCs outnumber
      pages about none. */
  lemma SynthesisSkipped(databaseId: string, docs: seq<Document>, embed: Embedder)
    requires AllNamesText(docs)
    requires SynthesisOutcome(databaseId, docs, embed).Ingested?
    ensures SynthesisOutcome(databaseId, docs, embed).skipped == |docs| - |AllNames(RepairAll(docs))|
  {
    SkippedCountIsDocumentsMinusVisits(RepairAll(docs));
  }

  // ---------------------------------------------------------------------------
  // src/ollama/ingest.py: the cached pages themselves

  /** Lines 80-103 once the documents are at hand: repair, embed (`ValueError` when no vector is
      usable), and store the kept documents; the skip count is `len(docs) - len(embeddings)`. */
  function CachedOutcome(databaseId: string, docs: seq<Document>, embed: Embedder): (r: Outcome)
    requires AllNamesText(docs)
    ensures Storable(r) && !r.NoDocuments?
  {
    var repaired := RepairAll(docs);
    var e := Kept(repaired, embed);
    if |e.indices| == 0 then Failed(ValueError)
    else Ingested(CollectionName(databaseId), BatchOf(repaired, e), |repaired| - |e.vectors|)
  }

  /** Lines 80-89 of src/ollama/ingest.py: repair and embed the documents themselves. */
  method EmbedCached(databaseId: string, documents: seq<Document>, embed: Embedder) returns (out: Outcome)
    requires AllNamesText(documents)
    ensures out == CachedOutcome(databaseId, documents, embed)
  {
    var repaired := Repair(documents);
    var embedded := CreateEmbeddings(repaired, embed);
    if embedded.Err? {
      return Failed(embedded.error);
    }
    var e := embedded.value;
    var valid := Select(repaired, e.indices);
    out := Ingested(CollectionName(databaseId), Batch(Contents(valid), e.vectors, Metadatas(valid)),
                    |repaired| - |e.vectors|);
  }

  /** Lines 73-103 of src/ollama/ingest.py. Without documents the cache is read, and an empty
      (or missing) cache entry returns before anything else; documents passed in, even an empty
      list, go the whole way. The undefined `get_existing_ids`/`store_embeddings` helpers are
      modelled by the collection helpers of src/database/database.py (its ids are the same
      `doc_i`); the existing ids are read and not used. */
  method ProcessAndStoreCached(chroma: Chroma, cache: NotionCache, databaseId: string,
                               docs: Option<seq<Document>>, embed: Embedder)
    returns (out: Outcome)
    requires docs.Some? ==> AllNamesText(docs.value)
    requires docs.None? ==> AllNamesText(cache.LoadDocsFromCache(databaseId))
    modifies chroma
    ensures var input := if docs.Some? then docs.value else cache.LoadDocsFromCache(databaseId);
            && (docs.None? && input == [] ==> out == NoDocuments)
            && (docs.Some? || input != [] ==> out == CachedOutcome(databaseId, input, embed))
    ensures Storable(out) && chroma.collections == After(old(chroma.collections), out)
  {
    var documents: seq<Document>;
    if docs.None? {
      documents := cache.LoadDocsFromCache(databaseId);
      if documents == [] {
        return NoDocuments;
      }
    } else {
      documents := docs.value;
    }
    out := EmbedCached(databaseId, documents, embed);
    if out.Failed? {
      return;
    }
    StoreBatchByName(chroma, out);
  }

  /** Lines 87-100: the k-th stored text and metadata are those of the repaired document at
      the k-th kept index, and the vector is the non-empty one the model returned for it. */
  lemma CachedBatchPairs(databaseId: string, docs: seq<Document>, embed: Embedder, k: nat)
    requires AllNamesText(docs)
    requires CachedOutcome(databaseId, docs, embed).Ingested?
    requires k < |CachedOutcome(databaseId, docs, embed).batch.documents|
    ensures var out := CachedOutcome(databaseId, docs, embed);
            var e := Kept(RepairAll(docs), embed);
            && k < |e.indices| && e.indices[k] < |docs|
            && var i := e.indices[k];
               && out.collection == CollectionName(databaseId)
               && out.batch.documents[k] == RepairedDocument(docs[i], i).pageContent
               && out.batch.metadata[k] == RepairedMetadata(docs[i].metadata, i)
               && embed(out.batch.documents[k]) == Returned(out.batch.embeddings[k])
               && |out.batch.embeddings[k]| > 0
  {
    var e := Kept(RepairAll(docs), embed);
    assert e.indices[k] in e.indices;
  }

  /** Line 103: the logged "skipped" count is never negative; it is the number of documents
      whose call raised or returned an empty vector. */
  lemma CachedSkipped(databaseId: string, docs: seq<Document>, embed: Embedder)
    requires AllNamesText(docs)
    requires CachedOutcome(databaseId, docs, embed).Ingested?
    ensures var out := CachedOutcome(databaseId, docs, embed);
            out.skipped == Failures(RepairAll(docs), embed) && out.skipped >= 0
  {
    KeptPlusFailures(RepairAll(docs), embed);
  }

  /** Line 82: the run raises `ValueError`, and stores nothing, exactly when no repaired
      document gets a usable vector; an empty list passed in is such a case. */
  lemma CachedRaises(databaseId: string, docs: seq<Document>, embed: Embedder)
    requires AllNamesText(docs)
    ensures var out := CachedOutcome(databaseId, docs, embed);
            && (out.Failed? <==> forall i | 0 <= i < |docs| :: !Usable(embed(RepairAll(docs)[i].pageContent)))
            && (out.Failed? ==> out.fault == ValueError)
            && (docs == [] ==> out == Failed(ValueError))
  {
    NothingKept(RepairAll(docs), embed);
  }

  // ---------------------------------------------------------------------------
  // The store after a run

  /** After a run that stored `n` entries, the collection holds exactly its old ids plus
      `doc_0..doc_{n-1}`, `doc_i` holds the i-th entry, and no other collection changed. */
  lemma AfterIngest(cs: map<string, Collection>, out: Outcome)
    requires Storable(out) && out.Ingested?
    ensures var after := After(cs, out);
            var b := out.batch;
            && out.collection in after
            && after[out.collection].Keys == Existing(cs, out.collection).Keys + IdsBelow(|b.documents|)
            && (forall i | 0 <= i < |b.documents| ::
                  DocId(i) in after[out.collection]
                  && after[out.collection][DocId(i)] == Record(b.documents[i], b.embeddings[i], b.metadata[i]))
            && (forall name | name in cs && name != out.collection :: name in after && after[name] == cs[name])
  {
    var b := out.batch;
    var c := Existing(cs, out.collection);
    StoredKeys(c, b.documents, b.embeddings, b.metadata);
    UpsertedAt(c, b.documents, b.embeddings, b.metadata, |b.documents|, "");
  }

  /** Re-running an ingestion that ends the same way changes nothing more: upsert, not append. */
  lemma ReingestIdempotent(cs: map<string, Collection>, out: Outcome)
    requires Storable(out)
    ensures After(After(cs, out), out) == After(cs, out)
  {
    if out.Ingested? {
      var b := out.batch;
      StoreIdempotent(Existing(cs, out.collection), b.documents, b.embeddings, b.metadata);
    }
  }
}
