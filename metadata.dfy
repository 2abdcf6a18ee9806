/** Metadata repair: `ensure_valid_metadata` (identical in src/ollama_utils/ingest.py
    and src/ollama/ingest.py). */
module Metadata {
  import opened Values

  const Unknown: Value := VStr("unknown")

  /** The default metadata given to document `i` when its metadata is not a dict. */
  function DefaultMetadata(i: nat): Value {
    VDict(map["source" := Unknown, "index" := VInt(i)])
  }

  /** Top-level None-free dict: what every repaired document carries. */
  predicate IsRepaired(md: Value) {
    md.VDict? && forall k | k in md.entries :: !md.entries[k].VNone?
  }

  /** The metadata document `i` has after repair. */
  function RepairedMetadata(md: Value, i: nat): (r: Value)
    ensures IsRepaired(r)
    ensures !md.VDict? ==> r == DefaultMetadata(i)
    ensures md.VDict? ==> r.entries.Keys == md.entries.Keys
    ensures md.VDict? ==> forall k | k in md.entries ::
              && (md.entries[k].VNone? ==> r.entries[k] == Unknown)
              && (!md.entries[k].VNone? ==> r.entries[k] == md.entries[k])
  {
    if md.VDict? then
      VDict(map k | k in md.entries :: if md.entries[k].VNone? then Unknown else md.entries[k])
    else
      DefaultMetadata(i)
  }

  /** The model follows documents whose `name` metadata, if any, is text or None:
      that value becomes the page text, which langchain types as `str`. */
  predicate NameIsText(md: Value) {
    md.VDict? && "name" in md.entries ==> md.entries["name"].VStr? || md.entries["name"].VNone?
  }

  /** Document `i` after repair: dict metadata, and the page text replaced by the name. */
  function RepairedDocument(d: Document, i: nat): (r: Document)
    requires NameIsText(d.metadata)
    ensures r.metadata == RepairedMetadata(d.metadata, i)
    ensures "name" in r.metadata.entries ==> r.metadata.entries["name"] == VStr(r.pageContent)
    ensures "name" !in r.metadata.entries ==> r.pageContent == d.pageContent
  {
    var md := RepairedMetadata(d.metadata, i);
    if "name" in md.entries then Document(md.entries["name"].s, md) else Document(d.pageContent, md)
  }

  predicate AllNamesText(docs: seq<Document>) {
    forall i | 0 <= i < |docs| :: NameIsText(docs[i].metadata)
  }

  /** The list `ensure_valid_metadata` returns: one repaired document per input, in order. */
  function RepairAll(docs: seq<Document>): (r: seq<Document>)
    requires AllNamesText(docs)
    ensures |r| == |docs|
    ensures forall i | 0 <= i < |docs| :: r[i] == RepairedDocument(docs[i], i)
  {
    seq(|docs|, i requires 0 <= i < |docs| => RepairedDocument(docs[i], i))
  }

  /** The loop of `ensure_valid_metadata`, updating each document where it stands. */
  method EnsureValidMetadata(docs: array<Document>)
    requires AllNamesText(docs[..])
    modifies docs
    ensures docs[..] == RepairAll(old(docs[..]))
  {
    var i := 0;
    while i < docs.Length
      invariant 0 <= i <= docs.Length
      invariant forall k | 0 <= k < i :: docs[k] == RepairedDocument(old(docs[k]), k)
      invariant forall k | i <= k < docs.Length :: docs[k] == old(docs[k])
    {
      docs[i] := RepairedDocument(docs[i], i);
      i := i + 1;
    }
  }

  /** Every repaired document has dict metadata with no top-level None. */
  lemma RepairedAreNormalized(docs: seq<Document>)
    requires AllNamesText(docs)
    ensures forall i | 0 <= i < |docs| :: IsRepaired(RepairAll(docs)[i].metadata)
  {
  }

  /** Repair changes nothing on an already repaired document (whatever its position). */
  lemma RepairIdempotent(d: Document, i: nat, j: nat)
    requires NameIsText(d.metadata)
    ensures NameIsText(RepairedDocument(d, i).metadata)
    ensures RepairedDocument(RepairedDocument(d, i), j) == RepairedDocument(d, i)
  {
    var r := RepairedDocument(d, i);
    var md := r.metadata;
    assert RepairedMetadata(md, j).entries == md.entries;
  }
}
