/** The failure-isolating embedding loop `create_embeddings`
    (src/ollama_utils/ingest.py:40-61, and its copy in src/ollama/ingest.py:30-51). */
module Embeddings {
  import opened Wrappers
  import opened Values

  /** What one call of the embedding model gives for a prompt: it raised, or it returned
      the `embedding` field of its response (the vector's numbers are opaque). */
  datatype EmbedResponse = Raised | Returned(vector: seq<real>)

  /** The embedding model, as a function of the prompt text. */
  type Embedder = string -> EmbedResponse

  /** `if embedding:` — the call returned and its vector is non-empty. */
  predicate Usable(r: EmbedResponse) {
    r.Returned? && |r.vector| > 0
  }

  /** The two lists `create_embeddings` returns: `embeddings` and `valid_indices`. */
  datatype Embedded = Embedded(vectors: seq<seq<real>>, indices: seq<nat>)

  /** The documents' indices are strictly increasing and in range, each vector is the
      one returned for the document at the paired index, and the documents kept are
      exactly those whose call returned a non-empty vector. */
  ghost predicate KeptFrom(docs: seq<Document>, embed: Embedder, e: Embedded) {
    && |e.vectors| == |e.indices|
    && (forall k | 0 <= k < |e.indices| :: e.indices[k] < |docs|)
    && (forall k, l | 0 <= k < l < |e.indices| :: e.indices[k] < e.indices[l])
    && (forall k | 0 <= k < |e.indices| ::
          embed(docs[e.indices[k]].pageContent) == Returned(e.vectors[k]))
    && (forall i | 0 <= i < |docs| :: i in e.indices <==> Usable(embed(docs[i].pageContent)))
  }

  /** What the loop has collected once it has gone through `docs`. */
  function Kept(docs: seq<Document>, embed: Embedder): (r: Embedded)
    ensures KeptFrom(docs, embed, r)
  {
    if docs == [] then Embedded([], [])
    else
      var n := |docs| - 1;
      var p := Kept(docs[..n], embed);
      var resp := embed(docs[n].pageContent);
      if Usable(resp) then
        Embedded(p.vectors + [resp.vector], p.indices + [n])
      else
        p
  }

  /** Number of documents whose call raised or returned an empty vector. */
  function Failures(docs: seq<Document>, embed: Embedder): nat {
    if docs == [] then 0
    else
      Failures(docs[..|docs| - 1], embed) + (if Usable(embed(docs[|docs| - 1].pageContent)) then 0 else 1)
  }

  /** Lines 40-61: the loop, with `ValueError` raised when nothing was kept. */
  method CreateEmbeddings(docs: seq<Document>, embed: Embedder) returns (r: Result<Embedded, Fault>)
    ensures |Kept(docs, embed).indices| > 0 ==> r == Ok(Kept(docs, embed))
    ensures |Kept(docs, embed).indices| == 0 ==> r == Err(ValueError)
  {
    var embeddings: seq<seq<real>> := [];
    var validIndices: seq<nat> := [];
    for i := 0 to |docs|
      invariant Embedded(embeddings, validIndices) == Kept(docs[..i], embed)
    {
      assert docs[..i + 1][..i] == docs[..i];
      var response := embed(docs[i].pageContent);
      if response.Returned? {
        var embedding := response.vector;
        if |embedding| > 0 {
          embeddings := embeddings + [embedding];
          validIndices := validIndices + [i];
        }
      }
    }
    assert docs[..|docs|] == docs;
    if |embeddings| == 0 {
      return Err(ValueError);
    }
    return Ok(Embedded(embeddings, validIndices));
  }

  /** Every document is either kept or skipped: the skip count `len(docs) - len(embeddings)`
      of src/ollama/ingest.py:103 is the number of failed or empty calls, never negative. */
  lemma {:induction false} KeptPlusFailures(docs: seq<Document>, embed: Embedder)
    ensures |Kept(docs, embed).indices| + Failures(docs, embed) == |docs|
  {
    if docs != [] {
      KeptPlusFailures(docs[..|docs| - 1], embed);
    }
  }

  /** `ValueError` is raised exactly when no call returned a non-empty vector. */
  lemma NothingKept(docs: seq<Document>, embed: Embedder)
    ensures |Kept(docs, embed).indices| == 0
            <==> forall i | 0 <= i < |docs| :: !Usable(embed(docs[i].pageContent))
  {
    var e := Kept(docs, embed);
    if |e.indices| > 0 {
      assert e.indices[0] in e.indices;
    }
  }

  /** `[docs[i] for i in valid_indices]`. */
  function Select(docs: seq<Document>, indices: seq<nat>): (r: seq<Document>)
    requires forall k | 0 <= k < |indices| :: indices[k] < |docs|
    ensures |r| == |indices|
  {
    seq(|indices|, k requires 0 <= k < |indices| => docs[indices[k]])
  }

  /** The zipping is aligned: the k-th selected document is one whose call returned
      the k-th embedding, and the selected documents keep their input order. */
  lemma SelectPairs(docs: seq<Document>, embed: Embedder, k: nat)
    requires k < |Kept(docs, embed).indices|
    ensures var e := Kept(docs, embed);
            var sel := Select(docs, e.indices);
            && k < |sel| && k < |e.vectors|
            && embed(sel[k].pageContent) == Returned(e.vectors[k])
            && Usable(embed(sel[k].pageContent))
  {
  }

  /** The selected documents appear in the same relative order as in the input. */
  lemma SelectOrder(docs: seq<Document>, embed: Embedder, k: nat, l: nat)
    requires k < l < |Kept(docs, embed).indices|
    ensures var e := Kept(docs, embed);
            var sel := Select(docs, e.indices);
            exists i, j | 0 <= i < j < |docs| :: sel[k] == docs[i] && sel[l] == docs[j]
  {
    var e := Kept(docs, embed);
    var i, j := e.indices[k], e.indices[l];
    assert Select(docs, e.indices)[k] == docs[i];
    assert Select(docs, e.indices)[l] == docs[j];
  }
}
