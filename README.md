# NoteKeeper ingestion and answer pipeline, in Dafny

This project models the Notion → Chroma ingestion pipeline of NoteKeeper and the answer-time
logic around it, and proves what that code promises.

The ingestion side is covered by these modules:

- `Download`: a Notion database is paged through. Each page becomes a langchain `Document`
  whose text is its paragraphs and whose metadata is its properties.
- `Cache`: the page lists are pickled per database id into a local cache.
- `Metadata`: `ensure_valid_metadata` repairs each document's metadata.
- `Synthesis`: documents are grouped by their `About NPC` relation, and one document is
  synthesized per NPC.
- `Embeddings`: `create_embeddings` embeds each document and skips the ones that fail.
- `VectorStore` and `Ingest`: the surviving documents are upserted into the Chroma collection
  `notion_<database id>` under the positional ids `doc_0 … doc_{n-1}`.

The answer side (`Answer`) covers:

- the 3500-character context window;
- the search over every collection;
- the fixed fallback replies of both `answer_question` variants;
- `extract_metadata`.

`Explore` models the collection dump of `_explore_embeddings.py`.

Foreign code is abstracted as plain data or total functions. This covers the Notion client, the
Ollama embedding and completion calls, the langchain retrievers, `json.loads` and `repr`. A call
that raises is `None` (or a dedicated constructor). The parser standing for `json.loads` is required to reject
the empty text, as `json.loads` does. Embedding vectors are opaque `seq<real>`. The
Python values found in metadata are the datatype `Values.Value`. The exceptions that escape are
`Wrappers.Fault`.

The model follows the code as written; in particular:

- Synthesized documents join their members' text with a single `"\n"`, not a blank line.
- Record ids are positional (`doc_i`), not derived from the NPC. A smaller re-ingest leaves stale
  `doc_k` records behind, and this is proved (`VectorStore.StaleSurvives`).
- The cache is written in place, with no atomic publish. Ingestion takes no lock.
- An empty cached list counts as a cache miss (`if cached_docs:`).
- The logged "skipped" count of the synthesizing ingest goes negative under fan-out
  (`Synthesis.SkippedNegativeUnderFanOut`).

Each copy of the duplicated drafts is modelled once. This covers `ensure_valid_metadata`,
`create_embeddings` and `load_docs_from_cache` in both `ingest.py` files, and the context loop,
`query_all_collections` and `extract_metadata` in both `answer.py` files.

## Model

| member | source | states |
|---|---|---|
| `Metadata.RepairedMetadata` | src/ollama_utils/ingest.py:66-71 | non-dict metadata of document i becomes exactly `{"source": "unknown", "index": i}`; dict metadata keeps its key set, every top-level None becomes "unknown" and every other value is unchanged |
| `Metadata.RepairedDocument` | src/ollama_utils/ingest.py:66-77 | after repair, the page text equals `metadata['name']` when that key is present, and is unchanged otherwise |
| `Metadata.RepairAll` | src/ollama_utils/ingest.py:63-81 | one repaired document per input, in input order, the i-th repaired with index i |
| `Metadata.EnsureValidMetadata` | src/ollama/ingest.py:53-71 | the in-place loop leaves the array equal to the repaired list of the original documents |
| `Metadata.RepairedAreNormalized` | src/ollama_utils/ingest.py:63-81 | every repaired document has dict metadata with no top-level None |
| `Metadata.RepairIdempotent` | src/ollama_utils/ingest.py:63-81 | repairing an already repaired document changes nothing, whatever its position |
| `Synthesis.GroupByNpc` | src/ollama_utils/ingest.py:99-108 | the grouping loop yields keys in first-occurrence order with each group's documents, or raises exactly what the first ungroupable document raises |
| `Synthesis.AddVisits` | src/ollama_utils/ingest.py:105-108 | the inner loop over one document's NPCs appends new names to the keys and the document once per visit to each group |
| `Synthesis.Visit` | src/ollama_utils/ingest.py:106-108 | one visit creates the group of a new name and appends the document to it |
| `Synthesis.FirstFaultAt` | src/ollama_utils/ingest.py:101-105 | the exception raised is that of the first document whose `About NPC` cannot be iterated or hashed |
| `Synthesis.FanOut` | src/ollama_utils/ingest.py:105-108 | a document is appended to group `npc` once per occurrence of `npc` in its list, between the earlier and the later documents' contributions |
| `Synthesis.NamelessJoinsNoGroup` | src/ollama_utils/ingest.py:102-104 | a document whose `About NPC` is missing, None or empty joins no group: removing it changes no group |
| `Synthesis.MembersSize` | src/ollama_utils/ingest.py:105-108 | a group's size is the number of times its name was visited |
| `Synthesis.GroupsNonEmpty` | src/ollama_utils/ingest.py:105-119 | every group key has at least one member, so `document_count >= 1` |
| `Synthesis.Distinct` | src/ollama_utils/ingest.py:106-107 | the keys are exactly the visited names, each once |
| `Synthesis.DistinctFirstOccurrenceOrder` | src/ollama_utils/ingest.py:106-107 | the keys appear in the order of their first occurrence |
| `Synthesis.SynthesizeAll` | src/ollama_utils/ingest.py:114-122 | one synthesized document per key, in key order, with `"\n"`-joined member texts and the metadata `{About NPC, document_count, source: synthesized}` |
| `Synthesis.SynthesizedIs` | src/ollama_utils/ingest.py:114-122 | what the synthesis loop promises determines its result: the specification `Synthesized` |
| `Synthesis.SynthesizedContents` | src/ollama_utils/ingest.py:114-122 | the i-th synthesized document belongs to the i-th distinct NPC; its text is the `"\n".join` of its group's texts in member order, and its count is the group size (at least one) |
| `Synthesis.SkippedCountIsDocumentsMinusVisits` | src/ollama_utils/ingest.py:132-134 | the logged skip count is the number of documents minus the number of (document, NPC) visits |
| `Synthesis.SkippedNegativeUnderFanOut` | src/ollama_utils/ingest.py:132-134 | a single page about two NPCs makes the logged skip count -1 |
| `Embeddings.Kept` | src/ollama_utils/ingest.py:40-61 | the vectors and indices have equal length; the indices are strictly increasing and in range; each vector is the one returned for its document; exactly the documents whose call returned a non-empty vector are kept |
| `Embeddings.CreateEmbeddings` | src/ollama_utils/ingest.py:40-61 | the loop returns the kept vectors and indices, skipping raising and empty calls without stopping; it raises ValueError when nothing was kept |
| `Embeddings.NothingKept` | src/ollama/ingest.py:48-49 | nothing is kept, and ValueError is raised, if and only if no document's call returned a non-empty vector |
| `Embeddings.KeptPlusFailures` | src/ollama/ingest.py:30-51 | every document is either kept or counted as a failure: kept + failures = number of documents |
| `Embeddings.Select` | src/ollama_utils/ingest.py:144 | `[docs[i] for i in valid_indices]` has one document per kept index |
| `Embeddings.SelectPairs` | src/ollama_utils/ingest.py:139-146 | the k-th selected document is the one whose call returned the k-th embedding, a non-empty vector |
| `Embeddings.SelectOrder` | src/ollama_utils/ingest.py:144 | the selected documents keep their input order |
| `VectorStore.DocIdInjective` | src/database/database.py:24 | `doc_i` and `doc_j` are equal if and only if i = j |
| `VectorStore.BatchIds` | src/database/database.py:24 | the id list of a batch of n is `doc_0 … doc_{n-1}` |
| `VectorStore.BatchIdsDistinct` | src/database/database.py:24 | the ids of one batch are pairwise distinct |
| `VectorStore.UpsertedAt` | src/database/database.py:19-25 | after the upsert, `doc_i` maps to (documents[i], embeddings[i], metadata[i]) for every i < n, and every other id is as before |
| `VectorStore.StoredKeys` | src/database/database.py:19-25 | the key set after a store is the old key set together with `doc_0 … doc_{n-1}` |
| `VectorStore.StaleSurvives` | src/database/database.py:19-25 | a smaller re-ingest leaves the old record under every `doc_k` with k >= n |
| `VectorStore.StoreIdempotent` | src/database/database.py:20 | storing the same batch twice yields the same collection as storing it once |
| `VectorStore.Chroma.GetOrCreateCollection` | src/database/database.py:12-14 | an existing collection is returned unchanged; a missing one is created empty; no other collection changes |
| `VectorStore.Chroma.ExistingIds` | src/database/database.py:16-17 | the result is exactly the collection's current key set |
| `VectorStore.Chroma.StoreEmbeddings` | src/database/database.py:19-25 | aligned lists are upserted positionally into the named collection and nothing else changes; misaligned lists change nothing |
| `Cache.NotionCache.LoadDocsLocally` | src/notion/notion_api.py:28-36 | None when the id has no entry, else the stored list |
| `Cache.NotionCache.LoadDocsFromCache` | src/ollama/ingest.py:21-26 | `[]` when the id has no entry, else the stored list |
| `Cache.NotionCache.SaveDocsLocally` | src/notion/notion_api.py:19-26 | the entry for the id is replaced wholesale, a later load returns exactly the saved list, and other ids load as before |
| `Cache.NotionCache.ExtractNotionDocs` | src/notion/notion_api.py:38-62 | with use_cache and a non-empty cached list, that list is returned, the loader is not called and the cache is unchanged; otherwise the loader runs, a success is saved and returned, and a failure returns None with the cache unchanged |
| `Download.FirstTitle` | src/notion/download.py:101 | the first title-typed property of a retrieved page, or None when there is none |
| `Download.RelationNames` | src/notion/download.py:96-110 | one name per related id, in order, each given by the related page's retrieval |
| `Download.GetRelationNames` | src/notion/download.py:96-110 | the loop appends exactly those names |
| `Download.RelationNameCases` | src/notion/download.py:99-109 | a name is 'Error' if retrieval raised, 'Untitled' if there is no title property or the title is empty, and otherwise the first title text |
| `Download.ExtractPageContent` | src/notion/download.py:86-94 | the page text is the concatenation of the block texts; None when listing the blocks raised |
| `Download.PageTextAppend` | src/notion/download.py:88-91 | the text of consecutive block lists is the concatenation of their texts, with no separator |
| `Download.SilentBlocks` | src/notion/download.py:90-91 | non-paragraph blocks and paragraphs with empty rich_text contribute nothing |
| `Download.PageMetadataOf` | src/notion/download.py:49-66 | the metadata holds `notion_id` = page id, `notion_url` = page url and a `notion_properties` dict; `title` and `name` are present together, and equal, exactly when a title property exists |
| `Download.PageMetadata` | src/notion/download.py:49-66 | the property loop builds exactly that metadata |
| `Download.PropertyMapping` | src/notion/download.py:56-66 | a title property is not put in `notion_properties`; a relation maps to its related pages' names; any other type maps to its `prop_value[type]` payload |
| `Download.TitleFromOnlyTitle` | src/notion/download.py:58-60 | with one title property, `title` is its first plain_text, or '' when its list is empty |
| `Download.NoTitle` | src/notion/download.py:56-66 | with no title property there is no `title` and no `name` |
| `Download.ConvertPages` | src/notion/download.py:41-72 | one document per page of a response, in order; None as soon as one page raises |
| `Download.DocsOfPages` | src/notion/download.py:41-72 | a successful conversion has one document per page, each made from its page |
| `Download.ExtractNotionDocs` | src/notion/download.py:19-84 | a missing key returns None before any query; otherwise the result is the successive queries' documents (first cursor None, then each `next_cursor`) up to the first response with `has_more` false, or None on any raise |
| `Download.FetchStep` | src/notion/download.py:35-77 | one loop turn: with `has_more` the result continues from `next_cursor`, and without it the loop ends with the batch |
| `Download.FetchPages` | src/notion/download.py:31-80 | a successful extraction is one document per page of the successive responses, in order, never a partial list |
| `Download.DocsNoneExtends` | src/notion/download.py:82-84 | a page that raises makes the whole extraction None |
| `Download.FetchBoundFree` | src/notion/download.py:35-77 | the result does not depend on the bound on the number of queries |
| `Download.FetchedMetadata` | src/notion/download.py:49-60 | every extracted document carries its page's id, url and a `notion_properties` dict, and its `name`, if any, is text |
| `Ingest.CollectionNameInjective` | src/ollama_utils/ingest.py:148 | `notion_<id>` names differ for different database ids |
| `Ingest.BatchOf` | src/ollama_utils/ingest.py:144-146 | documents[k] and metadata[k] come from the document at valid_indices[k] and pair with embeddings[k]; the three lists have equal length |
| `Ingest.SynthesisOutcome` | src/ollama_utils/ingest.py:91-160 | a synthesizing run either raises or stores an aligned batch; it never returns early |
| `Ingest.Synthesize` | src/ollama_utils/ingest.py:91-146 | repair, grouping, synthesis, skip count and embedding give exactly the specified outcome |
| `Ingest.ProcessAndStoreSynthesized` | src/ollama_utils/ingest.py:83-160 | without documents they are downloaded, and a failed download raises TypeError at `len(docs)`; otherwise the collections become the specified upsert, and nothing is stored when the run raises |
| `Ingest.StoreBatch` | src/ollama_utils/ingest.py:148-156 | get or create `notion_<id>`, then upsert the batch into it |
| `Ingest.StoreBatchByName` | src/ollama/ingest.py:91-100 | read the existing ids, then upsert the batch into `notion_<id>` |
| `Ingest.SynthesisBatchPairs` | src/ollama_utils/ingest.py:139-156 | the k-th stored text is the `"\n"`-joined text of some NPC's group; its metadata is that NPC's synthesized metadata with count >= 1; its vector is the non-empty one returned for that text; the collection is `notion_<id>` |
| `Ingest.SynthesisRaises` | src/ollama_utils/ingest.py:99-139 | the run raises exactly when grouping raises (the first bad document's exception) or when no synthesized document gets a usable vector (ValueError) |
| `Ingest.NoNpcNothingStored` | src/ollama_utils/ingest.py:99-139 | with no page about any NPC, ValueError is raised and nothing is stored |
| `Ingest.SynthesisSkipped` | src/ollama_utils/ingest.py:132-137 | the logged skip count is len(docs) minus the (document, NPC) visits |
| `Ingest.CachedOutcome` | src/ollama/ingest.py:80-103 | a non-synthesizing run either raises or stores an aligned batch |
| `Ingest.EmbedCached` | src/ollama/ingest.py:80-89 | repair and embedding give exactly the specified outcome |
| `Ingest.ProcessAndStoreCached` | src/ollama/ingest.py:73-103 | without documents the cache is read, and an empty or missing entry returns before storing anything; otherwise the collections become the specified upsert |
| `Ingest.CachedBatchPairs` | src/ollama/ingest.py:87-100 | the k-th stored text and metadata are those of the repaired document at the k-th kept index, paired with its non-empty vector |
| `Ingest.CachedSkipped` | src/ollama/ingest.py:103 | the logged skip count equals the number of failed or empty documents and is >= 0 |
| `Ingest.CachedRaises` | src/ollama/ingest.py:80-82 | ValueError is raised, and nothing stored, exactly when no repaired document gets a usable vector; an empty list passed in is such a case |
| `Ingest.AfterIngest` | src/ollama/ingest.py:91-100 | after a stored run, the collection's keys are its old keys together with `doc_0 … doc_{n-1}`, `doc_i` holds entry i, and no other collection changed |
| `Ingest.ReingestIdempotent` | src/ollama_utils/ingest.py:148-156 | running an ingestion that ends the same way twice is the same as running it once |
| `Answer.Stop` | src/ollama_utils/answer.py:133-137 | the stop index is the first document whose check `len(context) + len(doc) <= 3500` fails, or the end |
| `Answer.AssembleContext` | src/ollama_utils/answer.py:131-137 | the loop builds the whole-document prefix before the first failing document, each followed by `"\n\n"` |
| `Answer.StopUnique` | src/ollama/answer.py:119-125 | the stop index is determined by the checks alone |
| `Answer.ContextBound` | src/ollama/answer.py:122 | the context is at most 3502 characters long |
| `Answer.ContextEmptyWhenFirstTooLong` | src/ollama_utils/answer.py:134 | the context is empty when the first document is longer than 3500 characters |
| `Answer.ContextIsPrefix` | src/ollama_utils/answer.py:136-137 | documents after the first failing one are never added, even shorter ones |
| `Answer.QueryAllCollections` | src/ollama_utils/answer.py:35-50 | the concatenation, in listing order, of each collection's first result list; a raising query propagates |
| `Answer.AllResultsAppend` | src/ollama_utils/answer.py:42-48 | the results of consecutive collection lists concatenate |
| `Answer.NoneExtends` | src/ollama_utils/answer.py:42-48 | one raising query makes the whole call raise |
| `Answer.MessageInjective` | src/ollama/answer.py:83-142 | the reply can be read back from the returned text: two replies whose answers are none of the three fallback messages are equal exactly when their messages are |
| `Answer.RetrieversExactly` | src/ollama_utils/answer.py:83-101 | exactly the collections with a count above 0 become retrievers, in listing order |
| `Answer.RetrieversFail` | src/ollama_utils/answer.py:83-101 | the request aborts exactly when some collection raises something other than ValueError; ValueError only skips the collection |
| `Answer.AnswerQuestion` | src/ollama_utils/answer.py:58-154 | the all-collections `answer_question` returns the specified reply |
| `Answer.AllCollectionsNoInformation` | src/ollama_utils/answer.py:76-120 | the relevant-information message is returned exactly when the setup succeeded and there is no collection, no retriever or no retrieved document |
| `Answer.AllCollectionsAnswered` | src/ollama_utils/answer.py:122-150 | an answer is always the chain's output over the context of the non-empty retrieved documents |
| `Answer.FactsAnswerQuestion` | src/ollama/answer.py:58-142 | the single-collection `answer_question` returns the specified reply |
| `Answer.FactsOnlyFixedCollection` | src/ollama/answer.py:73-77 | only `notion_8d5dc8537d04457fa92a543a83ac397b` is consulted: services that agree on it give the same reply, and `database_ids` is ignored |
| `Answer.FactsNoAccess` | src/ollama/answer.py:94-96 | the access message is returned exactly when opening that collection raised ValueError |
| `Answer.FactsNoInformation` | src/ollama/answer.py:81-108 | the relevant-information message is returned exactly when that collection is empty or nothing was retrieved |
| `Answer.ExtractMetadata` | src/ollama_utils/answer.py:156-172 | text without a `{` or without a `}` is returned unchanged with `{}` |
| `Answer.ExtractMetadataSlices` | src/ollama/answer.py:144-160 | with start at the first `{` and end one past the last `}`: a failed parse returns (text, {}); a successful one returns `strip(text[:start]) + " " + strip(text[end:])` and the parsed slice `text[start:end]` |
| `Answer.ExtractMetadataReversedBraces` | src/ollama_utils/answer.py:156-172 | when the last `}` comes before the first `{`, the slice is empty, `json.loads` raises, and the text comes back unchanged with `{}` |
| `Text.Strip` | src/ollama_utils/answer.py:167 | `strip()` returns a slice with only whitespace outside it and no whitespace at its ends |
| `Text.StripIdempotent` | src/ollama_utils/answer.py:167 | stripping twice is stripping once |
| `Text.FindFirst` | src/ollama_utils/answer.py:159 | `index('{')` is the first position of the character, and None exactly when it is absent |
| `Text.FindLast` | src/ollama_utils/answer.py:160 | `rindex('}')` is the last position of the character, and None exactly when it is absent |
| `Text.Join` | src/ollama_utils/ingest.py:116 | `sep.join` of no items is empty, of one item is that item, and has the total length plus one separator per pair of neighbours |
| `Text.JoinSnoc` | src/ollama_utils/ingest.py:116 | joining one more item appends exactly one separator and then the item |
| `Text.DecimalRoundTrip` | src/database/database.py:24 | reading back the decimal rendering used in `doc_{i}` gives i |
| `Text.LessEqTotal` | src/ollama_utils/_explore_embeddings.py:60-63 | Python's string order is total |
| `Text.LessEqTransitive` | src/ollama_utils/_explore_embeddings.py:60-63 | Python's string order is transitive |
| `Text.LessEqAntisymmetric` | src/ollama_utils/_explore_embeddings.py:60-63 | Python's string order is antisymmetric |
| `Explore.ListChromaCollections` | src/ollama_utils/_explore_embeddings.py:23-41 | the listed collections, or `[]` when the listing or any count raises |
| `Explore.SortSorted` | src/ollama_utils/_explore_embeddings.py:60-63 | the dumped records are in non-decreasing order of `metadata["name"]`, or of the id when there is no name |
| `Explore.SortPermutes` | src/ollama_utils/_explore_embeddings.py:60-63 | the dumped triples are a permutation of `zip(ids, documents, metadatas)` |
| `Explore.SortStable` | src/ollama_utils/_explore_embeddings.py:60-63 | records with equal keys keep their collection order |
| `Explore.InsertSorted` | src/ollama_utils/_explore_embeddings.py:60-63 | inserting a record into a sorted list keeps it sorted |
| `Explore.InsertPermutes` | src/ollama_utils/_explore_embeddings.py:60-63 | inserting adds exactly that record |
| `Explore.InsertStable` | src/ollama_utils/_explore_embeddings.py:60-63 | an inserted record goes after every earlier record with its key |
| `Explore.Dump` | src/ollama_utils/_explore_embeddings.py:43-77 | with no collection nothing is written; otherwise the file holds, per collection, `"Collection: <name>\n"`, 50 `=`, `"\n\n"`, one block per sorted record and a final `"\n\n"` |
| `Explore.DocBlocksAppend` | src/ollama_utils/_explore_embeddings.py:68-73 | the document blocks of consecutive record lists concatenate, one `"Document ID: …\nMetadata: …\nContent:\n…\n"` + 50 `-` + `"\n\n"` block per record |

## Left out

- I/O and plumbing are not modelled. This covers pickle files and directory creation (the cache
  is a map), `.env` loading, logging and `print`, the lazily created global Chroma client, and
  the `sys.exit` of the dump script.
- Pickle failures and I/O errors while saving or loading the cache are not modelled. The loader
  failure modelled is the one raised by `NotionDBLoader(...).load()`.
- Concurrency is not modelled. The code has no locks and no atomic cache publish, and the model
  adds none.
- Retrieval internals are oracles: `EnsembleRetriever`, MMR search, `RetrievalQA`, Chroma
  similarity search and the Ollama calls. Each returns a list or a text, or raises.
- The numbers inside embedding vectors are not modelled; vectors are opaque `seq<real>`.
- The embedding model is a fixed function of the prompt text. Two calls with the same text
  get the same answer.
- `Download.ExtractNotionDocs`: the model requires that the Notion server ends pagination within
  some number of queries (`Runs`). The Python loop never ends if `has_more` stays true forever.
  `Ingest.ProcessAndStoreSynthesized` requires the same of the download it starts.
- `Metadata.RepairedDocument`: it requires that a `name` metadata value is text or None
  (`NameIsText`). langchain types `page_content` as `str`, and the pages extracted from Notion
  always meet this (`Download.FetchedMetadata`). The same requirement, on every document, is made
  by `Metadata.RepairAll`, `Metadata.EnsureValidMetadata`, `Ingest.Synthesize`,
  `Ingest.EmbedCached`, `Ingest.ProcessAndStoreSynthesized`, `Ingest.ProcessAndStoreCached` and
  the outcome functions and lemmas of `Ingest`.
- `Synthesis.GroupByNpc`: NPC keys are compared structurally. Python's dict merges `1`, `1.0`
  and `True` into one key; the relation names produced by the download are strings, for which
  the two agree.
- `Synthesis.GroupByNpc`: an `About NPC` value that is a non-empty dict is iterated by key in
  Python. The model reports `Fault.Unmodelled` there, because dict iteration order is not
  modelled.
- `Explore.Dump`: the model covers only text sort keys (`TextKey`). Numeric or bool names, which
  Python orders numerically among themselves, are not modelled, nor is a single-record collection
  whose key is not text (Python compares nothing there). Python raises `TypeError` only when it
  compares text with a number. Non-dict metadata raises `AttributeError` at `.get`, which the
  model also leaves out by requiring dict metadata.
- Only the final answer of the Notion loader is modelled. The `NotionDBLoader` used by
  src/notion/notion_api.py is a library call whose result is a parameter.
- The broken helpers are not part of this model:
  - `process_and_store_embeddings_chroma` (src/database/database.py:27-34) passes two arguments
    to a one-parameter function.
  - `store_embeddings`/`get_existing_ids`, which src/ollama/ingest.py imports, are not defined.
    Their calls are modelled with the `doc_i` upsert of src/database/database.py.
- The Discord layer, the thin loader wrappers (notion_extract.py) and the debug scripts other
  than the collection dump are not part of this model.
