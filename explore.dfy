/** The collection dump of src/ollama_utils/_explore_embeddings.py: list the collections,
    sort each one's records by name (or id) with a stable sort, and lay them out as text. */
module Explore {
  import opened Wrappers
  import opened Values
  import opened Text

  // ---------------------------------------------------------------------------
  // list_chroma_collections (lines 23-41)

  /** Every listed collection could be counted. */
  predicate AllCounted(names: seq<string>, count: string -> Option<nat>) {
    forall k | 0 <= k < |names| :: count(names[k]).Some?
  }

  /** Lines 23-41: the listed collections, after counting each for the log; `[]` when the
      listing or any count raises. `count` is `collection.count()`, `None` where it raises. */
  method ListChromaCollections(listed: Option<seq<string>>, count: string -> Option<nat>)
    returns (collections: seq<string>)
    ensures listed.None? ==> collections == []
    ensures listed.Some? && AllCounted(listed.value, count) ==> collections == listed.value
    ensures listed.Some? && !AllCounted(listed.value, count) ==> collections == []
  {
    if listed.None? {
      return [];
    }
    collections := listed.value;
    for i := 0 to |collections|
      invariant AllCounted(collections[..i], count)
    {
      if count(collections[i]).None? {
        return [];
      }
      assert collections[..i + 1][..i] == collections[..i];
    }
    assert collections[..|collections|] == collections;
  }

  // ---------------------------------------------------------------------------
  // The sort (lines 57-63)

  /** One `(id, document, metadata)` triple of `zip(ids, documents, metadatas)`. */
  datatype StoredRecord = StoredRecord(id: string, document: string, metadata: Value)

  /** `x[2].get("name", x[0])`. */
  function KeyValue(r: StoredRecord): Value
    requires r.metadata.VDict?
  {
    Get(r.metadata.entries, "name", VStr(r.id))
  }

  /** The sort key can be computed and compared: the metadata is a dict and its `name`, if any,
      is text (Python raises on any other key). */
  predicate TextKey(r: StoredRecord) {
    r.metadata.VDict? && KeyValue(r).VStr?
  }

  predicate AllTextKeys(rs: seq<StoredRecord>) {
    forall k | 0 <= k < |rs| :: TextKey(rs[k])
  }

  /** The key as text. */
  function Key(r: StoredRecord): string {
    if TextKey(r) then KeyValue(r).s else ""
  }

  /** Consecutive records are in key order. */
  predicate Sorted(rs: seq<StoredRecord>) {
    forall k | 0 < k < |rs| :: LessEq(Key(rs[k - 1]), Key(rs[k]))
  }

  /** The records with key `key`, in order. */
  function WithKey(rs: seq<StoredRecord>, key: string): seq<StoredRecord> {
    if rs == [] then []
    else WithKey(rs[..|rs| - 1], key) + (if Key(rs[|rs| - 1]) == key then [rs[|rs| - 1]] else [])
  }

  /** Place `x` after every record whose key is not above its own (so later records stay after
      earlier ones of equal key). */
  function Insert(x: StoredRecord, t: seq<StoredRecord>): (r: seq<StoredRecord>)
    ensures |r| == |t| + 1
    ensures r[|r| - 1] == x || (t != [] && r[|r| - 1] == t[|t| - 1])
  {
    if t == [] then [x]
    else if LessEq(Key(t[|t| - 1]), Key(x)) then t + [x]
    else Insert(x, t[..|t| - 1]) + [t[|t| - 1]]
  }

  /** `sorted(...)` with the key above: insertion sort, stable like Python's. */
  function SortByKey(rs: seq<StoredRecord>): (r: seq<StoredRecord>)
    ensures |r| == |rs|
  {
    if rs == [] then [] else Insert(rs[|rs| - 1], SortByKey(rs[..|rs| - 1]))
  }

  /** `sorted(zip(ids, documents, metadatas), key=...)` on records whose keys are text. */
  function SortRecords(rs: seq<StoredRecord>): (r: seq<StoredRecord>)
    requires AllTextKeys(rs)
    ensures |r| == |rs|
  {
    SortByKey(rs)
  }

  lemma {:induction false} InsertSorted(x: StoredRecord, t: seq<StoredRecord>)
    requires Sorted(t)
    ensures Sorted(Insert(x, t))
  {
    if t != [] && !LessEq(Key(t[|t| - 1]), Key(x)) {
      var n := |t| - 1;
      assert Sorted(t[..n]) by {
        forall k | 0 < k < n
          ensures LessEq(Key(t[..n][k - 1]), Key(t[..n][k]))
        {
          assert t[..n][k - 1] == t[k - 1] && t[..n][k] == t[k];
        }
      }
      InsertSorted(x, t[..n]);
      var u := Insert(x, t[..n]);
      LessEqTotal(Key(t[n]), Key(x));
      var r := u + [t[n]];
      forall k | 0 < k < |r|
        ensures LessEq(Key(r[k - 1]), Key(r[k]))
      {
        if k < |u| {
          assert r[k - 1] == u[k - 1] && r[k] == u[k];
        } else {
          assert r[k - 1] == u[|u| - 1] && r[k] == t[n];
          if n > 0 && u[|u| - 1] == t[n - 1] {
            assert LessEq(Key(t[n - 1]), Key(t[n]));
          }
        }
      }
    }
  }

  /** The result is in key order. */
  lemma {:induction false} SortSorted(rs: seq<StoredRecord>)
    ensures Sorted(SortByKey(rs))
  {
    if rs != [] {
      SortSorted(rs[..|rs| - 1]);
      InsertSorted(rs[|rs| - 1], SortByKey(rs[..|rs| - 1]));
    }
  }

  lemma {:induction false} InsertPermutes(x: StoredRecord, t: seq<StoredRecord>)
    ensures multiset(Insert(x, t)) == multiset(t) + multiset{x}
  {
    if t != [] && !LessEq(Key(t[|t| - 1]), Key(x)) {
      var n := |t| - 1;
      InsertPermutes(x, t[..n]);
      assert t == t[..n] + [t[n]];
    }
  }

  /** The dumped triples are a permutation of the collection's. */
  lemma {:induction false} SortPermutes(rs: seq<StoredRecord>)
    ensures multiset(SortByKey(rs)) == multiset(rs)
  {
    if rs != [] {
      var n := |rs| - 1;
      SortPermutes(rs[..n]);
      InsertPermutes(rs[n], SortByKey(rs[..n]));
      assert rs == rs[..n] + [rs[n]];
    }
  }

  lemma WithKeyAppend(a: seq<StoredRecord>, x: StoredRecord, key: string)
    ensures WithKey(a + [x], key) == WithKey(a, key) + (if Key(x) == key then [x] else [])
  {
    assert (a + [x])[..|a|] == a;
  }

  lemma {:induction false} InsertStable(x: StoredRecord, t: seq<StoredRecord>, key: string)
    ensures WithKey(Insert(x, t), key) == WithKey(t, key) + (if Key(x) == key then [x] else [])
  {
    if t == [] {
      WithKeyAppend([], x, key);
      assert [] + [x] == [x];
    } else if LessEq(Key(t[|t| - 1]), Key(x)) {
      WithKeyAppend(t, x, key);
    } else {
      var n := |t| - 1;
      var front, last := t[..n], t[n];
      var u := Insert(x, front);
      var w := WithKey(front, key);
      var xs := if Key(x) == key then [x] else [];
      var ls := if Key(last) == key then [last] else [];
      LessEqReflexive(Key(x));
      assert Key(last) != Key(x);
      assert (w + xs) + ls == (w + ls) + xs by {
        if Key(x) == key {
          assert ls == [];
        } else {
          assert xs == [];
        }
      }
      calc {
        WithKey(Insert(x, t), key);
      == { assert Insert(x, t) == u + [last]; }
        WithKey(u + [last], key);
      == { WithKeyAppend(u, last, key); }
        WithKey(u, key) + ls;
      == { InsertStable(x, front, key); }
        (w + xs) + ls;
        (w + ls) + xs;
      == { WithKeyAppend(front, last, key); assert front + [last] == t; }
        WithKey(t, key) + xs;
      }
    }
  }

  lemma {:induction false} LessEqReflexive(a: string)
    ensures LessEq(a, a)
  {
    if a != [] {
      LessEqReflexive(a[1..]);
    }
  }

  /** Stability: the records of each key keep their collection order. */
  lemma {:induction false} SortStable(rs: seq<StoredRecord>, key: string)
    ensures WithKey(SortByKey(rs), key) == WithKey(rs, key)
  {
    if rs != [] {
      var n := |rs| - 1;
      var front, last := rs[..n], rs[n];
      var tail := if Key(last) == key then [last] else [];
      calc {
        WithKey(SortByKey(rs), key);
        WithKey(Insert(last, SortByKey(front)), key);
      == { InsertStable(last, SortByKey(front), key); }
        WithKey(SortByKey(front), key) + tail;
      == { SortStable(front, key); }
        WithKey(front, key) + tail;
      == { WithKeyAppend(front, last, key); assert rs == front + [last]; }
        WithKey(rs, key);
      }
    }
  }

  // ---------------------------------------------------------------------------
  // The dump layout (lines 50-75)

  /** Lines 69-73: one document block, as its five writes; `repr` is Python's `str` of the
      metadata dict. */
  function DocBlock(r: StoredRecord, repr: Value -> string): string {
    ("Document ID: " + r.id + "\n") + ("Metadata: " + repr(r.metadata) + "\n") + "Content:\n"
    + (r.document + "\n") + (Repeat('-', 50) + "\n\n")
  }

  /** Concatenation regroups: what successive writes after `h + d` leave. */
  lemma Regroup5(h: string, d: string, a: string, b: string, c: string, x: string, e: string)
    ensures h + d + a + b + c + x + e == h + (d + (a + b + c + x + e))
  {
  }

  lemma Regroup4(h: string, a: string, b: string, d: string, e: string)
    ensures h + a + b + d + e == h + (a + b + d + e)
  {
  }

  function DocBlocks(rs: seq<StoredRecord>, repr: Value -> string): string {
    if rs == [] then "" else DocBlocks(rs[..|rs| - 1], repr) + DocBlock(rs[|rs| - 1], repr)
  }

  /** Lines 65-75: one collection block, its records in sorted order. */
  function CollectionBlock(name: string, rs: seq<StoredRecord>, repr: Value -> string): string
    requires AllTextKeys(rs)
  {
    ("Collection: " + name + "\n") + (Repeat('=', 50) + "\n\n") + DocBlocks(SortRecords(rs), repr) + "\n\n"
  }

  /** The records a collection's `get` returns are sortable. */
  predicate Dumpable(names: seq<string>, get: string -> seq<StoredRecord>) {
    forall k | 0 <= k < |names| :: AllTextKeys(get(names[k]))
  }

  /** The file's text: the collection blocks in listed order. */
  function DumpText(names: seq<string>, get: string -> seq<StoredRecord>, repr: Value -> string): string
    requires Dumpable(names, get)
  {
    if names == [] then ""
    else
      var n := |names| - 1;
      assert Dumpable(names[..n], get) by {
        forall k | 0 <= k < n
          ensures AllTextKeys(get(names[..n][k]))
        {
          assert names[..n][k] == names[k];
        }
      }
      DumpText(names[..n], get, repr) + CollectionBlock(names[n], get(names[n]), repr)
  }

  /** Lines 43-77: with no collection nothing is written and no file is made; otherwise the file
      holds one block per collection, each written by successive `f.write` calls. */
  method Dump(collections: seq<string>, get: string -> seq<StoredRecord>, repr: Value -> string)
    returns (file: Option<string>)
    requires Dumpable(collections, get)
    ensures collections == [] ==> file.None?
    ensures collections != [] ==> file == Some(DumpText(collections, get, repr))
  {
    if collections == [] {
      return None;
    }
    var f := "";
    for i := 0 to |collections|
      invariant Dumpable(collections[..i], get)
      invariant f == DumpText(collections[..i], get, repr)
    {
      var name := collections[i];
      var documents := get(name);
      assert AllTextKeys(documents);
      var sortedDocs := SortRecords(documents);
      ghost var before := f;
      f := f + ("Collection: " + name + "\n");
      f := f + (Repeat('=', 50) + "\n\n");
      ghost var blocks := "";
      for k := 0 to |sortedDocs|
        invariant blocks == DocBlocks(sortedDocs[..k], repr)
        invariant f == before + ("Collection: " + name + "\n") + (Repeat('=', 50) + "\n\n") + blocks
      {
        var r := sortedDocs[k];
        assert sortedDocs[..k + 1][..k] == sortedDocs[..k];
        ghost var h := before + ("Collection: " + name + "\n") + (Repeat('=', 50) + "\n\n");
        f := f + ("Document ID: " + r.id + "\n");
        f := f + ("Metadata: " + repr(r.metadata) + "\n");
        f := f + "Content:\n";
        f := f + (r.document + "\n");
        f := f + (Repeat('-', 50) + "\n\n");
        Regroup5(h, blocks, "Document ID: " + r.id + "\n", "Metadata: " + repr(r.metadata) + "\n", "Content:\n",
                 r.document + "\n", Repeat('-', 50) + "\n\n");
        blocks := blocks + DocBlock(r, repr);
      }
      assert sortedDocs[..|sortedDocs|] == sortedDocs;
      f := f + "\n\n";
      Regroup4(before, "Collection: " + name + "\n", Repeat('=', 50) + "\n\n", blocks, "\n\n");
      assert collections[..i + 1][..i] == collections[..i];
    }
    assert collections[..|collections|] == collections;
    return Some(f);
  }

  /** Each document block is one per record, in sorted order: the text of a collection's
      records is the concatenation of their blocks. */
  lemma {:induction false} DocBlocksAppend(a: seq<StoredRecord>, b: seq<StoredRecord>, repr: Value -> string)
    ensures DocBlocks(a + b, repr) == DocBlocks(a, repr) + DocBlocks(b, repr)
  {
    if b == [] {
      assert a + b == a;
    } else {
      var n := |b| - 1;
      assert (a + b)[..|a + b| - 1] == a + b[..n];
      assert (a + b)[|a + b| - 1] == b[n];
      calc {
        DocBlocks(a + b, repr);
        DocBlocks(a + b[..n], repr) + DocBlock(b[n], repr);
        { DocBlocksAppend(a, b[..n], repr); }
        DocBlocks(a, repr) + DocBlocks(b[..n], repr) + DocBlock(b[n], repr);
        DocBlocks(a, repr) + (DocBlocks(b[..n], repr) + DocBlock(b[n], repr));
        DocBlocks(a, repr) + DocBlocks(b, repr);
      }
    }
  }
}
