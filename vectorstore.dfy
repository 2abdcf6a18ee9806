/** The Chroma collection helpers of src/database/database.py: a store of named
    collections, each a map from id to record, written by positional upserts. */
module VectorStore {
  import opened Values
  import opened Text

  /** What a collection holds under one id. */
  datatype Record = Record(document: string, embedding: seq<real>, metadata: Value)

  type Collection = map<string, Record>

  /** `f"doc_{i}"`. */
  function DocId(i: nat): string {
    "doc_" + Decimal(i)
  }

  /** Positional ids never collide: `doc_i` and `doc_j` differ when `i` and `j` do. */
  lemma DocIdInjective(i: nat, j: nat)
    ensures DocId(i) == DocId(j) <==> i == j
  {
    if DocId(i) == DocId(j) {
      assert DocId(i)[4..] == Decimal(i);
      assert DocId(j)[4..] == Decimal(j);
      DecimalInjective(i, j);
    }
  }

  /** The ids `[f"doc_{i}" for i in range(n)]` of a batch of `n` documents. */
  function BatchIds(n: nat): (r: seq<string>)
    ensures |r| == n
    ensures forall i | 0 <= i < n :: r[i] == DocId(i)
  {
    seq(n, i requires 0 <= i < n => DocId(i))
  }

  /** The ids of one batch are pairwise distinct, so the upsert never sees a duplicate. */
  lemma BatchIdsDistinct(n: nat)
    ensures forall i, j | 0 <= i < j < n :: BatchIds(n)[i] != BatchIds(n)[j]
  {
    forall i, j | 0 <= i < j < n
      ensures BatchIds(n)[i] != BatchIds(n)[j]
    {
      DocIdInjective(i, j);
    }
  }

  /** A batch whose three lists have the same length. */
  predicate Aligned(documents: seq<string>, embeddings: seq<seq<real>>, metadata: seq<Value>) {
    |documents| == |embeddings| == |metadata|
  }

  /** The collection after upserting the first `n` entries of a batch under `doc_0..doc_{n-1}`. */
  function Upserted(c: Collection, documents: seq<string>, embeddings: seq<seq<real>>,
                    metadata: seq<Value>, n: nat): Collection
    requires Aligned(documents, embeddings, metadata) && n <= |documents|
  {
    if n == 0 then c
    else
      Upserted(c, documents, embeddings, metadata, n - 1)
        [DocId(n - 1) := Record(documents[n - 1], embeddings[n - 1], metadata[n - 1])]
  }

  /** A whole batch upserted. */
  function Stored(c: Collection, documents: seq<string>, embeddings: seq<seq<real>>,
                  metadata: seq<Value>): Collection
    requires Aligned(documents, embeddings, metadata)
  {
    Upserted(c, documents, embeddings, metadata, |documents|)
  }

  /** The positional ids below `n`, as a set. */
  function IdsBelow(n: nat): set<string> {
    set i | 0 <= i < n :: DocId(i)
  }

  /** Lines 20-25: after the upsert of `n` entries, `doc_i` holds entry `i` for each `i < n`,
      and every other id is as before. */
  lemma {:induction false} UpsertedAt(c: Collection, documents: seq<string>, embeddings: seq<seq<real>>,
                                      metadata: seq<Value>, n: nat, k: string)
    requires Aligned(documents, embeddings, metadata) && n <= |documents|
    ensures var u := Upserted(c, documents, embeddings, metadata, n);
            && (forall i | 0 <= i < n ::
                  DocId(i) in u && u[DocId(i)] == Record(documents[i], embeddings[i], metadata[i]))
            && (k !in IdsBelow(n) ==> (k in u <==> k in c) && (k in c ==> u[k] == c[k]))
  {
    if n > 0 {
      UpsertedAt(c, documents, embeddings, metadata, n - 1, k);
      var u := Upserted(c, documents, embeddings, metadata, n);
      forall i | 0 <= i < n
        ensures DocId(i) in u && u[DocId(i)] == Record(documents[i], embeddings[i], metadata[i])
      {
        DocIdInjective(i, n - 1);
      }
    }
  }

  /** Lines 20-25: the key set after a store is the old key set plus the batch's ids. */
  lemma StoredKeys(c: Collection, documents: seq<string>, embeddings: seq<seq<real>>, metadata: seq<Value>)
    requires Aligned(documents, embeddings, metadata)
    ensures Stored(c, documents, embeddings, metadata).Keys == c.Keys + IdsBelow(|documents|)
  {
    var u := Stored(c, documents, embeddings, metadata);
    forall k | k in u.Keys
      ensures k in c.Keys + IdsBelow(|documents|)
    {
      UpsertedAt(c, documents, embeddings, metadata, |documents|, k);
    }
    forall k | k in c.Keys + IdsBelow(|documents|)
      ensures k in u.Keys
    {
      UpsertedAt(c, documents, embeddings, metadata, |documents|, k);
    }
  }

  /** A smaller re-ingest leaves the stale entries of the larger one: `doc_k` with
      `k >= len(documents)` keeps its old record. */
  lemma StaleSurvives(c: Collection, documents: seq<string>, embeddings: seq<seq<real>>,
                      metadata: seq<Value>, k: nat)
    requires Aligned(documents, embeddings, metadata)
    requires k >= |documents| && DocId(k) in c
    ensures var u := Stored(c, documents, embeddings, metadata);
            DocId(k) in u && u[DocId(k)] == c[DocId(k)]
  {
    forall i | 0 <= i < |documents|
      ensures DocId(k) != DocId(i)
    {
      DocIdInjective(k, i);
    }
    UpsertedAt(c, documents, embeddings, metadata, |documents|, DocId(k));
  }

  /** Upsert, not append: storing the same batch twice is storing it once. */
  lemma StoreIdempotent(c: Collection, documents: seq<string>, embeddings: seq<seq<real>>, metadata: seq<Value>)
    requires Aligned(documents, embeddings, metadata)
    ensures var once := Stored(c, documents, embeddings, metadata);
            Stored(once, documents, embeddings, metadata) == once
  {
    var once := Stored(c, documents, embeddings, metadata);
    var twice := Stored(once, documents, embeddings, metadata);
    StoredKeys(c, documents, embeddings, metadata);
    StoredKeys(once, documents, embeddings, metadata);
    forall k | k in twice
      ensures twice[k] == once[k]
    {
      UpsertedAt(c, documents, embeddings, metadata, |documents|, k);
      UpsertedAt(once, documents, embeddings, metadata, |documents|, k);
      if k in IdsBelow(|documents|) {
        var i :| 0 <= i < |documents| && k == DocId(i);
      }
    }
  }

  /** The Chroma server's collections, by name. A collection object is a handle that
      names its collection. */
  class Chroma {
    var collections: map<string, Collection>

    constructor ()
      ensures collections == map[]
    {
      collections := map[];
    }

    /** Lines 12-14: an existing collection is returned as it is; a missing one is created empty. */
    method GetOrCreateCollection(name: string) returns (handle: string)
      modifies this
      ensures handle == name && handle in collections
      ensures name in old(collections) ==> collections == old(collections)
      ensures name !in old(collections) ==> collections == old(collections)[name := map[]]
    {
      if name !in collections {
        collections := collections[name := map[]];
      }
      handle := name;
    }

    /** Lines 16-17: the ids currently in the collection. */
    function ExistingIds(handle: string): (ids: set<string>)
      reads this
      requires handle in collections
      ensures forall k :: k in ids <==> k in collections[handle]
    {
      collections[handle].Keys
    }

    /** Lines 19-25: upsert the batch under `doc_0..doc_{n-1}`. The three lists must have the
        same length (Chroma raises otherwise, and nothing is written); other collections are
        not touched. */
    method StoreEmbeddings(handle: string, documents: seq<string>, embeddings: seq<seq<real>>,
                           metadata: seq<Value>) returns (ok: bool)
      requires handle in collections
      modifies this
      ensures ok <==> Aligned(documents, embeddings, metadata)
      ensures ok ==> collections == old(collections)[handle := Stored(old(collections)[handle], documents, embeddings, metadata)]
      ensures !ok ==> collections == old(collections)
    {
      if !Aligned(documents, embeddings, metadata) {
        return false;
      }
      collections := collections[handle := Stored(collections[handle], documents, embeddings, metadata)];
      return true;
    }
  }
}
