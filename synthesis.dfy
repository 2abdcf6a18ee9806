/** NPC grouping and synthesis inside `process_and_store_embeddings`
    (src/ollama_utils/ingest.py:99-137). */
module Synthesis {
  import opened Wrappers
  import opened Values
  import opened Text

  const AboutNpc: string := "About NPC"

  // ---------------------------------------------------------------------------
  // Which names one document is grouped under.

  /** What `for npc in about_npcs` visits once `about_npcs` is truthy: the items of a
      list, the one-character strings of a str. A list item that is not hashable
      makes `npc not in npc_groups` raise; a number or bool is not iterable. */
  function Iterated(v: Value): Result<seq<Value>, Fault> {
    match v
    case VList(items) =>
      if forall i | 0 <= i < |items| :: Hashable(items[i]) then Ok(items) else Err(TypeError)
    case VStr(s) => Ok(seq(|s|, i requires 0 <= i < |s| => VStr([s[i]])))
    case VDict(_) => Err(Unmodelled)
    case _ => Err(TypeError)
  }

  /** `doc.metadata.get('notion_properties', {}).get('About NPC', [])`, iterated;
      a falsy value (missing, None, empty) gives no names. */
  function NpcsOf(d: Document): Result<seq<Value>, Fault> {
    if !d.metadata.VDict? then Err(AttributeError)
    else
      var props := Get(d.metadata.entries, "notion_properties", EmptyDict);
      if !props.VDict? then Err(AttributeError)
      else
        var about := Get(props.entries, AboutNpc, VList([]));
        if !Truthy(about) then Ok([]) else Iterated(about)
  }

  /** The names of a document the loop gets through. */
  function Names(d: Document): seq<Value> {
    match NpcsOf(d)
    case Ok(ns) => ns
    case Err(_) => []
  }

  /** No document makes the grouping loop raise. */
  predicate Groupable(docs: seq<Document>) {
    forall d | d in docs :: NpcsOf(d).Ok?
  }

  /** The exception raised by the first document the loop cannot group. */
  function FirstFault(docs: seq<Document>): Fault
    requires !Groupable(docs)
  {
    if NpcsOf(docs[0]).Err? then NpcsOf(docs[0]).error
    else
      assert !Groupable(docs[1..]) by {
        var d :| d in docs && NpcsOf(d).Err?;
        assert docs == [docs[0]] + docs[1..];
      }
      FirstFault(docs[1..])
  }

  /** Every (document, name) visit of the loop, as the sequence of names visited. */
  function AllNames(docs: seq<Document>): seq<Value> {
    if docs == [] then [] else AllNames(docs[..|docs| - 1]) + Names(docs[|docs| - 1])
  }

  /** Number of occurrences of `x` in `s`. */
  function Count(s: seq<Value>, x: Value): nat {
    if s == [] then 0 else Count(s[..|s| - 1], x) + (if s[|s| - 1] == x then 1 else 0)
  }

  /** `n` copies of document `d`. */
  function Copies(d: Document, n: nat): (r: seq<Document>)
    ensures |r| == n
  {
    if n == 0 then [] else Copies(d, n - 1) + [d]
  }

  lemma CopiesSnoc(d: Document, n: nat)
    ensures Copies(d, n + 1) == Copies(d, n) + [d]
  {
  }

  /** Group `npc`: each document, once per occurrence of `npc` in its names, in document order. */
  function Members(docs: seq<Document>, npc: Value): seq<Document> {
    if docs == [] then []
    else
      var d := docs[|docs| - 1];
      Members(docs[..|docs| - 1], npc) + Copies(d, Count(Names(d), npc))
  }

  /** The elements of `s` in first-occurrence order, each once (the dict's key order). */
  function Distinct(s: seq<Value>): (r: seq<Value>)
    ensures forall x :: x in r <==> x in s
    ensures forall i, j | 0 <= i < j < |r| :: r[i] != r[j]
  {
    if s == [] then []
    else
      var p := Distinct(s[..|s| - 1]);
      if s[|s| - 1] in p then p else p + [s[|s| - 1]]
  }

  lemma DistinctSnoc(s: seq<Value>, x: Value)
    ensures Distinct(s + [x]) == if x in s then Distinct(s) else Distinct(s) + [x]
  {
    assert (s + [x])[..|s|] == s;
  }

  /** `npc_groups` after the loop: its keys in insertion order and its lists. */
  datatype Groups = Groups(keys: seq<Value>, members: map<Value, seq<Document>>)

  function MembersMap(docs: seq<Document>): map<Value, seq<Document>> {
    map npc | npc in AllNames(docs) :: Members(docs, npc)
  }

  function GroupsOf(docs: seq<Document>): Groups {
    Groups(Distinct(AllNames(docs)), MembersMap(docs))
  }

  // ---------------------------------------------------------------------------
  // Facts about the specification functions.

  lemma CountAppend(a: seq<Value>, b: seq<Value>, x: Value)
    ensures Count(a + b, x) == Count(a, x) + Count(b, x)
    decreases |b|
  {
    if b != [] {
      assert (a + b)[..|a + b| - 1] == a + b[..|b| - 1];
      assert (a + b)[|a + b| - 1] == b[|b| - 1];
      CountAppend(a, b[..|b| - 1], x);
    } else {
      assert a + b == a;
    }
  }

  lemma {:induction false} CountAbsent(s: seq<Value>, x: Value)
    ensures x !in s <==> Count(s, x) == 0
  {
    if s != [] {
      CountAbsent(s[..|s| - 1], x);
      assert s == s[..|s| - 1] + [s[|s| - 1]];
    }
  }

  lemma {:induction false} AllNamesAppend(a: seq<Document>, b: seq<Document>)
    ensures AllNames(a + b) == AllNames(a) + AllNames(b)
    decreases |b|
  {
    if b != [] {
      assert (a + b)[..|a + b| - 1] == a + b[..|b| - 1];
      assert (a + b)[|a + b| - 1] == b[|b| - 1];
      AllNamesAppend(a, b[..|b| - 1]);
    } else {
      assert a + b == a;
    }
  }

  lemma {:induction false} MembersAppend(a: seq<Document>, b: seq<Document>, npc: Value)
    ensures Members(a + b, npc) == Members(a, npc) + Members(b, npc)
    decreases |b|
  {
    if b != [] {
      assert (a + b)[..|a + b| - 1] == a + b[..|b| - 1];
      assert (a + b)[|a + b| - 1] == b[|b| - 1];
      MembersAppend(a, b[..|b| - 1], npc);
    } else {
      assert a + b == a;
    }
  }

  /** The size of a group is the number of times its name was visited. */
  lemma {:induction false} MembersSize(docs: seq<Document>, npc: Value)
    ensures |Members(docs, npc)| == Count(AllNames(docs), npc)
  {
    if docs != [] {
      var p := docs[..|docs| - 1];
      MembersSize(p, npc);
      CountAppend(AllNames(p), Names(docs[|docs| - 1]), npc);
    }
  }

  /** Only visited names have members. */
  lemma MembersOutside(docs: seq<Document>, npc: Value)
    requires npc !in AllNames(docs)
    ensures Members(docs, npc) == []
  {
    MembersSize(docs, npc);
    CountAbsent(AllNames(docs), npc);
  }

  /** Every group key has at least one member, so `document_count >= 1`. */
  lemma GroupsNonEmpty(docs: seq<Document>)
    ensures forall npc | npc in GroupsOf(docs).keys :: |GroupsOf(docs).members[npc]| >= 1
  {
    forall npc | npc in GroupsOf(docs).keys
      ensures |GroupsOf(docs).members[npc]| >= 1
    {
      MembersSize(docs, npc);
      CountAbsent(AllNames(docs), npc);
    }
  }

  lemma MembersSnoc(docs: seq<Document>, d: Document, npc: Value)
    ensures Members(docs + [d], npc) == Members(docs, npc) + Copies(d, Count(Names(d), npc))
    ensures AllNames(docs + [d]) == AllNames(docs) + Names(d)
  {
    assert (docs + [d])[..|docs|] == docs;
  }

  lemma MembersSingle(d: Document, npc: Value)
    ensures Members([d], npc) == Copies(d, Count(Names(d), npc))
  {
    assert [d][..0] == [];
  }

  /** A document is put into group `npc` once per occurrence of `npc` among its names. */
  lemma FanOut(docs: seq<Document>, i: nat, npc: Value)
    requires i < |docs|
    ensures Members(docs, npc)
            == Members(docs[..i], npc) + Copies(docs[i], Count(Names(docs[i]), npc)) + Members(docs[i + 1..], npc)
  {
    assert docs == docs[..i] + [docs[i]] + docs[i + 1..];
    MembersAppend(docs[..i] + [docs[i]], docs[i + 1..], npc);
    MembersAppend(docs[..i], [docs[i]], npc);
    MembersSingle(docs[i], npc);
  }

  /** A document with no names (missing, None or empty `About NPC`) is in no group:
      dropping it changes no group. */
  lemma NamelessJoinsNoGroup(docs: seq<Document>, i: nat, npc: Value)
    requires i < |docs| && Names(docs[i]) == []
    ensures Members(docs, npc) == Members(docs[..i] + docs[i + 1..], npc)
  {
    var before, after := Members(docs[..i], npc), Members(docs[i + 1..], npc);
    var none := Names(docs[i]);
    assert Count(none, npc) == 0 by {
      assert none == [];
    }
    calc {
      Members(docs, npc);
    == { FanOut(docs, i, npc); }
      before + Copies(docs[i], Count(none, npc)) + after;
    == { assert Copies(docs[i], 0) == []; }
      before + [] + after;
    == { assert before + [] == before; }
      before + after;
    == { MembersAppend(docs[..i], docs[i + 1..], npc); }
      Members(docs[..i] + docs[i + 1..], npc);
    }
  }

  /** Position of the first `x` in `s`. */
  function FirstPos(s: seq<Value>, x: Value): (p: nat)
    requires x in s
    ensures p < |s| && s[p] == x && x !in s[..p]
  {
    if s[0] == x then 0 else 1 + FirstPos(s[1..], x)
  }

  /** Group keys come in the order of first appearance. */
  lemma {:induction false} DistinctFirstOccurrenceOrder(s: seq<Value>)
    ensures forall i, j | 0 <= i < j < |Distinct(s)| :: FirstPos(s, Distinct(s)[i]) < FirstPos(s, Distinct(s)[j])
  {
    if s != [] {
      var q := s[..|s| - 1];
      var x := s[|s| - 1];
      assert s == q + [x];
      DistinctFirstOccurrenceOrder(q);
      var p := Distinct(q);
      var r := Distinct(s);
      assert r == if x in p then p else p + [x];
      forall i, j | 0 <= i < j < |r|
        ensures FirstPos(s, r[i]) < FirstPos(s, r[j])
      {
        assert r[i] == p[i];
        FirstPosPrefix(q, x, p[i]);
        if j < |p| {
          assert r[j] == p[j];
          FirstPosPrefix(q, x, p[j]);
        } else {
          FirstPosLast(q, x);
        }
      }
    }
  }

  lemma FirstPosPrefix(q: seq<Value>, x: Value, y: Value)
    requires y in q
    ensures FirstPos(q + [x], y) == FirstPos(q, y)
  {
    if q[0] != y {
      assert (q + [x])[1..] == q[1..] + [x];
      FirstPosPrefix(q[1..], x, y);
    }
  }

  lemma FirstPosLast(q: seq<Value>, x: Value)
    requires x !in q
    ensures FirstPos(q + [x], x) == |q|
  {
    if q != [] {
      assert (q + [x])[1..] == q[1..] + [x];
      FirstPosLast(q[1..], x);
    }
  }

  // ---------------------------------------------------------------------------
  // The bookkeeping of lines 132-134.

  /** `sum(len(npc_docs) for npc_docs in npc_groups.values())`. */
  function GroupedTotal(keys: seq<Value>, members: map<Value, seq<Document>>): nat
    requires forall npc | npc in keys :: npc in members
  {
    if keys == [] then 0
    else GroupedTotal(keys[..|keys| - 1], members) + |members[keys[|keys| - 1]]|
  }

  /** The logged "skipped" count: documents minus grouped visits; negative under fan-out. */
  function SkippedCount(docs: seq<Document>): int {
    var g := GroupsOf(docs);
    |docs| - GroupedTotal(g.keys, g.members)
  }

  function SumCounts(keys: seq<Value>, s: seq<Value>): nat {
    if keys == [] then 0 else SumCounts(keys[..|keys| - 1], s) + Count(s, keys[|keys| - 1])
  }

  lemma {:induction false} SumCountsExtend(keys: seq<Value>, s: seq<Value>, x: Value)
    requires forall i, j | 0 <= i < j < |keys| :: keys[i] != keys[j]
    ensures SumCounts(keys, s + [x]) == SumCounts(keys, s) + (if x in keys then 1 else 0)
  {
    if keys != [] {
      var p := keys[..|keys| - 1];
      SumCountsExtend(p, s, x);
      CountAppend(s, [x], keys[|keys| - 1]);
      assert [x][..0] == [];
      assert x in keys <==> x in p || x == keys[|keys| - 1];
    }
  }

  /** Summing, over the distinct names, how often each was visited counts every visit. */
  lemma {:induction false} SumCountsDistinct(s: seq<Value>)
    ensures SumCounts(Distinct(s), s) == |s|
  {
    if s != [] {
      var q := s[..|s| - 1];
      var x := s[|s| - 1];
      assert s == q + [x];
      SumCountsDistinct(q);
      SumCountsExtend(Distinct(q), q, x);
      if x !in q {
        CountAbsent(q, x);
        CountAppend(q, [x], x);
        assert [x][..0] == [];
        SumCountsDistinct(q);
        assert SumCounts(Distinct(q) + [x], s) == SumCounts(Distinct(q), s) + Count(s, x) by {
          assert (Distinct(q) + [x])[..|Distinct(q)|] == Distinct(q);
        }
      }
    }
  }

  lemma {:induction false} GroupedTotalIsSumCounts(docs: seq<Document>, keys: seq<Value>)
    requires forall npc | npc in keys :: npc in MembersMap(docs)
    ensures GroupedTotal(keys, MembersMap(docs)) == SumCounts(keys, AllNames(docs))
  {
    if keys != [] {
      GroupedTotalIsSumCounts(docs, keys[..|keys| - 1]);
      MembersSize(docs, keys[|keys| - 1]);
    }
  }

  /** The skipped count equals documents minus (document, name) visits. */
  lemma SkippedCountIsDocumentsMinusVisits(docs: seq<Document>)
    ensures SkippedCount(docs) == |docs| - |AllNames(docs)|
  {
    GroupedTotalIsSumCounts(docs, Distinct(AllNames(docs)));
    SumCountsDistinct(AllNames(docs));
  }

  /** The logged "skipped" count goes negative under fan-out: one page about two NPCs is
      one document but two grouped visits. */
  lemma SkippedNegativeUnderFanOut(d: Document)
    requires d.metadata == VDict(map["notion_properties" := VDict(map[AboutNpc := VList([VStr("Ada"), VStr("Bo")])])])
    ensures SkippedCount([d]) == -1
  {
    assert NpcsOf(d) == Ok([VStr("Ada"), VStr("Bo")]);
    assert [d][..0] == [];
    assert AllNames([d]) == [VStr("Ada"), VStr("Bo")];
    SkippedCountIsDocumentsMinusVisits([d]);
  }

  // ---------------------------------------------------------------------------
  // The loops.

  /** The error path: with the documents before `i` groupable, document `i`'s fault is the one raised. */
  lemma {:induction false} FirstFaultAt(docs: seq<Document>, i: nat)
    requires i < |docs| && Groupable(docs[..i]) && NpcsOf(docs[i]).Err?
    ensures !Groupable(docs) && FirstFault(docs) == NpcsOf(docs[i]).error
  {
    if i > 0 {
      assert docs[0] in docs[..i];
      assert docs[1..][..i - 1] == docs[..i][1..];
      assert docs[1..][i - 1] == docs[i];
      FirstFaultAt(docs[1..], i - 1);
    }
  }

  /** A group's list before the visits of the current document. */
  function Prior(members: map<Value, seq<Document>>, x: Value): seq<Document> {
    if x in members then members[x] else []
  }

  lemma CountSnoc(s: seq<Value>, y: Value, x: Value)
    ensures Count(s + [y], x) == Count(s, x) + (if y == x then 1 else 0)
  {
    assert (s + [y])[..|s|] == s;
  }

  /** The state of the inner loop after visiting the names `counted` of document `d`,
      starting from the groups `prior` built over the names `seen` minus `counted`. */
  ghost predicate VisitState(keys: seq<Value>, members: map<Value, seq<Document>>, seen: seq<Value>,
                             prior: map<Value, seq<Document>>, d: Document, counted: seq<Value>)
  {
    && keys == Distinct(seen)
    && (forall x :: x in members <==> x in seen)
    && (forall x | x in members :: members[x] == Prior(prior, x) + Copies(d, Count(counted, x)))
  }

  /** A visit of a name not seen before opens its group with `d`. */
  lemma VisitNew(keys: seq<Value>, members: map<Value, seq<Document>>, before: seq<Value>,
                 prior: map<Value, seq<Document>>, d: Document, counted: seq<Value>, npc: Value,
                 keys': seq<Value>, members': map<Value, seq<Document>>)
    requires forall x :: x in prior <==> x in before
    requires VisitState(keys, members, before + counted, prior, d, counted)
    requires npc !in members
    requires keys' == keys + [npc] && members' == members[npc := [d]]
    ensures VisitState(keys', members', before + counted + [npc], prior, d, counted + [npc])
  {
    var seen := before + counted;
    assert npc !in prior && npc !in counted by {
      assert npc !in seen;
      assert npc in before ==> npc in seen;
      assert npc in counted ==> npc in seen;
    }
    var m1 := members[npc := [d]];
    assert npc !in seen;
    assert keys + [npc] == Distinct(seen + [npc]) by {
      DistinctSnoc(seen, npc);
    }
    KeysAfterVisit(members, seen, npc, [d]);
    GroupsAfterNewVisit(members, prior, d, counted, npc);
    VisitStateIntro(keys + [npc], m1, seen + [npc], prior, d, counted + [npc]);
  }

  /** The group equations of `VisitState` after the new group `npc` is opened with `d`. */
  lemma GroupsAfterNewVisit(members: map<Value, seq<Document>>, prior: map<Value, seq<Document>>,
                            d: Document, counted: seq<Value>, npc: Value)
    requires forall x | x in members :: members[x] == Prior(prior, x) + Copies(d, Count(counted, x))
    requires npc !in prior && npc !in counted
    ensures var m1 := members[npc := [d]];
            forall x | x in m1 :: m1[x] == Prior(prior, x) + Copies(d, Count(counted + [npc], x))
  {
    var m1 := members[npc := [d]];
    forall x | x in m1
      ensures m1[x] == Prior(prior, x) + Copies(d, Count(counted + [npc], x))
    {
      CountSnoc(counted, npc, x);
      if x == npc {
        CountAbsent(counted, npc);
        assert Count(counted + [npc], x) == 1;
        assert Copies(d, 1) == Copies(d, 0) + [d] == [d];
        assert Prior(prior, x) == [];
        assert m1[x] == [d] == [] + [d];
      } else {
        assert m1[x] == members[x];
      }
    }
  }

  /** A visit of a name seen before appends `d` to its group. */
  lemma VisitOld(keys: seq<Value>, members: map<Value, seq<Document>>, seen: seq<Value>,
                 prior: map<Value, seq<Document>>, d: Document, counted: seq<Value>, npc: Value,
                 members': map<Value, seq<Document>>)
    requires VisitState(keys, members, seen, prior, d, counted)
    requires npc in members && members' == members[npc := members[npc] + [d]]
    ensures VisitState(keys, members', seen + [npc], prior, d, counted + [npc])
  {
    var m1 := members[npc := members[npc] + [d]];
    assert Distinct(seen + [npc]) == keys by {
      assert npc in seen;
      DistinctSnoc(seen, npc);
    }
    KeysAfterVisit(members, seen, npc, members[npc] + [d]);
    GroupsAfterOldVisit(members, prior, d, counted, npc);
    VisitStateIntro(keys, m1, seen + [npc], prior, d, counted + [npc]);
  }

  lemma VisitStateIntro(keys: seq<Value>, members: map<Value, seq<Document>>, seen: seq<Value>,
                        prior: map<Value, seq<Document>>, d: Document, counted: seq<Value>)
    requires keys == Distinct(seen)
    requires forall x :: x in members <==> x in seen
    requires forall x | x in members :: members[x] == Prior(prior, x) + Copies(d, Count(counted, x))
    ensures VisitState(keys, members, seen, prior, d, counted)
  {
  }

  /** Setting the group of a visited name keeps the keys equal to the names seen. */
  lemma KeysAfterVisit(members: map<Value, seq<Document>>, seen: seq<Value>, npc: Value, group: seq<Document>)
    requires forall x :: x in members <==> x in seen
    ensures forall x :: x in members[npc := group] <==> x in seen + [npc]
  {
  }

  /** The group equations of `VisitState` after `d` is appended to the existing group `npc`. */
  lemma GroupsAfterOldVisit(members: map<Value, seq<Document>>, prior: map<Value, seq<Document>>,
                            d: Document, counted: seq<Value>, npc: Value)
    requires forall x | x in members :: members[x] == Prior(prior, x) + Copies(d, Count(counted, x))
    requires npc in members
    ensures var m1 := members[npc := members[npc] + [d]];
            forall x | x in m1 :: m1[x] == Prior(prior, x) + Copies(d, Count(counted + [npc], x))
  {
    var m1 := members[npc := members[npc] + [d]];
    forall x | x in m1
      ensures m1[x] == Prior(prior, x) + Copies(d, Count(counted + [npc], x))
    {
      CountSnoc(counted, npc, x);
      if x == npc {
        var c := Count(counted, x);
        assert Count(counted + [npc], x) == c + 1;
        assert Copies(d, c + 1) == Copies(d, c) + [d];
        assert m1[x] == members[x] + [d] == (Prior(prior, x) + Copies(d, c)) + [d];
        assert (Prior(prior, x) + Copies(d, c)) + [d] == Prior(prior, x) + (Copies(d, c) + [d]);
      } else {
        assert m1[x] == members[x];
        assert Count(counted + [npc], x) == Count(counted, x);
      }
    }
  }

  /** Before the first visit of a document, the groups are those built so far. */
  lemma VisitStart(keys: seq<Value>, members: map<Value, seq<Document>>, before: seq<Value>, d: Document)
    requires keys == Distinct(before)
    requires forall x :: x in members <==> x in before
    ensures VisitState(keys, members, before + [], members, d, [])
  {
    assert before + [] == before;
    forall x | x in members
      ensures members[x] == Prior(members, x) + Copies(d, Count([], x))
    {
      assert Copies(d, 0) == [];
      assert members[x] + [] == members[x];
    }
  }

  /** Lines 106-108, one visit: open the group of a new name, then append `d` to it. */
  method Visit(keys: seq<Value>, members: map<Value, seq<Document>>, d: Document, npc: Value,
               ghost before: seq<Value>, ghost prior: map<Value, seq<Document>>, ghost counted: seq<Value>)
    returns (keys': seq<Value>, members': map<Value, seq<Document>>)
    requires forall x :: x in prior <==> x in before
    requires VisitState(keys, members, before + counted, prior, d, counted)
    ensures VisitState(keys', members', before + counted + [npc], prior, d, counted + [npc])
  {
    ghost var seen := before + counted;
    keys', members' := keys, members;
    if npc !in members' {
      keys' := keys' + [npc];
      members' := members'[npc := []];
      members' := members'[npc := members'[npc] + [d]];
      assert [] + [d] == [d];
      VisitNew(keys, members, before, prior, d, counted, npc, keys', members');
    } else {
      members' := members'[npc := members'[npc] + [d]];
      VisitOld(keys, members, seen, prior, d, counted, npc, members');
    }
  }

  /** The visits of one document (the inner `for npc in about_npcs` loop): new names are
      appended to the keys, and the document is appended to each visited group. */
  method AddVisits(keys: seq<Value>, members: map<Value, seq<Document>>, d: Document, ns: seq<Value>,
                   ghost before: seq<Value>)
    returns (keys': seq<Value>, members': map<Value, seq<Document>>)
    requires keys == Distinct(before)
    requires forall x :: x in members <==> x in before
    ensures VisitState(keys', members', before + ns, members, d, ns)
  {
    keys', members' := keys, members;
    ghost var counted: seq<Value> := [];
    VisitStart(keys, members, before, d);
    var j := 0;
    while j < |ns|
      invariant 0 <= j <= |ns|
      invariant counted == ns[..j]
      invariant VisitState(keys', members', before + counted, members, d, counted)
    {
      var npc := ns[j];
      assert ns[..j + 1] == counted + [npc];
      keys', members' := Visit(keys', members', d, npc, before, members, counted);
      AppendAssoc(before, counted, [npc]);
      counted := counted + [npc];
      j := j + 1;
    }
    assert counted == ns;
  }

  lemma AppendAssoc(a: seq<Value>, b: seq<Value>, c: seq<Value>)
    ensures a + b + c == a + (b + c)
  {
  }

  /** `npc_groups` after the outer loop has grouped `done`. */
  ghost predicate GroupState(keys: seq<Value>, members: map<Value, seq<Document>>, done: seq<Document>) {
    && keys == Distinct(AllNames(done))
    && (forall x :: x in members <==> x in AllNames(done))
    && (forall x | x in members :: members[x] == Members(done, x))
  }

  /** The visits of one more document extend the grouping by that document. */
  lemma GroupStep(keys: seq<Value>, members: map<Value, seq<Document>>, done: seq<Document>,
                  d: Document, ns: seq<Value>,
                  keys': seq<Value>, members': map<Value, seq<Document>>)
    requires GroupState(keys, members, done)
    requires NpcsOf(d) == Ok(ns)
    requires VisitState(keys', members', AllNames(done) + ns, members, d, ns)
    ensures GroupState(keys', members', done + [d])
  {
    MembersSnoc(done, d, d.metadata);
    assert AllNames(done + [d]) == AllNames(done) + ns;
    forall x | x in members'
      ensures members'[x] == Members(done + [d], x)
    {
      MembersSnoc(done, d, x);
      if x !in members {
        MembersOutside(done, x);
      }
    }
  }

  /** Lines 100-108: fill `npc_groups` in place; raises what the first bad document raises. */
  method GroupByNpc(docs: seq<Document>) returns (r: Result<Groups, Fault>)
    ensures Groupable(docs) ==> r == Ok(GroupsOf(docs))
    ensures !Groupable(docs) ==> r == Err(FirstFault(docs))
  {
    var keys: seq<Value> := [];
    var members: map<Value, seq<Document>> := map[];
    var i := 0;
    while i < |docs|
      invariant 0 <= i <= |docs|
      invariant Groupable(docs[..i])
      invariant GroupState(keys, members, docs[..i])
    {
      var d := docs[i];
      var found := NpcsOf(d);
      if found.Err? {
        FirstFaultAt(docs, i);
        return Err(found.error);
      }
      var ns := found.value;
      var keys', members' := AddVisits(keys, members, d, ns, AllNames(docs[..i]));
      GroupStep(keys, members, docs[..i], d, ns, keys', members');
      assert docs[..i + 1] == docs[..i] + [d];
      keys, members := keys', members';
      i := i + 1;
    }
    assert docs[..i] == docs;
    assert members == MembersMap(docs);
    return Ok(Groups(keys, members));
  }

  /** The text of the members, in member order. */
  function Contents(ds: seq<Document>): seq<string> {
    seq(|ds|, i requires 0 <= i < |ds| => ds[i].pageContent)
  }

  /** Lines 116-122: the document synthesized for one NPC. */
  function SynthesizedDoc(npc: Value, group: seq<Document>): Document {
    Document(
      Join("\n", Contents(group)),
      VDict(map[AboutNpc := npc, "document_count" := VInt(|group|), "source" := VStr("synthesized")]))
  }

  /** Lines 114-122: one synthesized document per group, in key order. */
  method SynthesizeAll(g: Groups) returns (out: seq<Document>)
    requires forall npc | npc in g.keys :: npc in g.members
    ensures |out| == |g.keys|
    ensures forall i | 0 <= i < |g.keys| :: out[i] == SynthesizedDoc(g.keys[i], g.members[g.keys[i]])
  {
    out := [];
    for i := 0 to |g.keys|
      invariant |out| == i
      invariant forall k | 0 <= k < i :: out[k] == SynthesizedDoc(g.keys[k], g.members[g.keys[k]])
    {
      var npc := g.keys[i];
      var group := g.members[npc];
      var content := Join("\n", Contents(group));
      out := out + [Document(content, VDict(map[AboutNpc := npc, "document_count" := VInt(|group|), "source" := VStr("synthesized")]))];
    }
  }

  /** The specification of the synthesis step as a whole. */
  function Synthesized(docs: seq<Document>): (r: seq<Document>)
    ensures |r| == |Distinct(AllNames(docs))|
  {
    var g := GroupsOf(docs);
    seq(|g.keys|, i requires 0 <= i < |g.keys| => SynthesizedDoc(g.keys[i], g.members[g.keys[i]]))
  }

  /** What `SynthesizeAll` promises of its result determines it. */
  lemma SynthesizedIs(docs: seq<Document>, out: seq<Document>)
    requires var g := GroupsOf(docs);
             && |out| == |g.keys|
             && forall i | 0 <= i < |g.keys| :: g.keys[i] in g.members && out[i] == SynthesizedDoc(g.keys[i], g.members[g.keys[i]])
    ensures out == Synthesized(docs)
  {
  }

  /** One synthesized document per distinct NPC, with its count (at least one) and joined text. */
  lemma SynthesizedContents(docs: seq<Document>, i: nat)
    requires i < |Synthesized(docs)|
    ensures var npc := Distinct(AllNames(docs))[i];
            var group := Members(docs, npc);
            && |group| >= 1
            && Synthesized(docs)[i].pageContent == Join("\n", Contents(group))
            && Synthesized(docs)[i].metadata
               == VDict(map[AboutNpc := npc, "document_count" := VInt(|group|), "source" := VStr("synthesized")])
  {
    GroupsNonEmpty(docs);
  }
}
