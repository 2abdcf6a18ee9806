/** Answer-time logic of src/ollama_utils/answer.py (all collections) and src/ollama/answer.py
    (one fixed collection): the context window, the collection search, the fixed fallback
    replies and `extract_metadata`. Chroma, the retrievers and the language model are oracles. */
module Answer {
  import opened Wrappers
  import opened Values
  import opened Text

  // ---------------------------------------------------------------------------
  // The context window (src/ollama_utils/answer.py:131-137, src/ollama/answer.py:119-125)

  const MaxContextLength: nat := 3500

  /** Each document's text followed by a blank line, in order. */
  function Stuffed(docs: seq<Document>): string {
    if docs == [] then "" else Stuffed(docs[..|docs| - 1]) + docs[|docs| - 1].pageContent + "\n\n"
  }

  /** Whether document `i` passes the check once the documents before it are in. */
  predicate Fits(docs: seq<Document>, i: nat)
    requires i < |docs|
  {
    |Stuffed(docs[..i])| + |docs[i].pageContent| <= MaxContextLength
  }

  /** The index of the first document that fails the check (or `|docs|`), found from `i` on. */
  function StopFrom(docs: seq<Document>, i: nat): (j: nat)
    requires i <= |docs|
    requires forall k | 0 <= k < i :: Fits(docs, k)
    ensures i <= j <= |docs|
    ensures forall k | 0 <= k < j :: Fits(docs, k)
    ensures j < |docs| ==> !Fits(docs, j)
    decreases |docs| - i
  {
    if i == |docs| then i
    else if Fits(docs, i) then StopFrom(docs, i + 1)
    else i
  }

  /** The first index whose check fails, or `|docs|` when all pass. */
  function Stop(docs: seq<Document>): (j: nat)
    ensures j <= |docs|
    ensures forall k | 0 <= k < j :: Fits(docs, k)
    ensures j < |docs| ==> !Fits(docs, j)
  {
    StopFrom(docs, 0)
  }

  /** The context the loop builds: the whole documents before the first failing one. */
  function Context(docs: seq<Document>): string {
    Stuffed(docs[..Stop(docs)])
  }

  /** The loop: append while `len(context) + len(doc) <= 3500`, stop at the first failure. */
  method AssembleContext(retrievedDocs: seq<Document>) returns (context: string)
    ensures context == Context(retrievedDocs)
  {
    context := "";
    var i := 0;
    while i < |retrievedDocs|
      invariant 0 <= i <= |retrievedDocs|
      invariant forall k | 0 <= k < i :: Fits(retrievedDocs, k)
      invariant context == Stuffed(retrievedDocs[..i])
    {
      var doc := retrievedDocs[i];
      if |context| + |doc.pageContent| <= MaxContextLength {
        assert retrievedDocs[..i + 1][..i] == retrievedDocs[..i];
        context := context + doc.pageContent + "\n\n";
        i := i + 1;
      } else {
        break;
      }
    }
    StopUnique(retrievedDocs, i);
  }

  /** The stop index is determined by the checks: any `j` before which all pass and at which one
      fails (or which is the end) is `Stop(docs)`. */
  lemma StopUnique(docs: seq<Document>, j: nat)
    requires j <= |docs|
    requires forall k | 0 <= k < j :: Fits(docs, k)
    requires j < |docs| ==> !Fits(docs, j)
    ensures j == Stop(docs)
  {
  }

  /** The check bounds the context: at most 3500 characters of text plus the last blank line. */
  lemma ContextBound(docs: seq<Document>)
    ensures |Context(docs)| <= MaxContextLength + 2
  {
    var j := Stop(docs);
    if j > 0 {
      assert Fits(docs, j - 1);
      assert docs[..j][..j - 1] == docs[..j - 1];
    }
  }

  /** A first document over 3500 characters leaves the context empty, however short the rest. */
  lemma ContextEmptyWhenFirstTooLong(docs: seq<Document>)
    requires |docs| > 0 && |docs[0].pageContent| > MaxContextLength
    ensures Context(docs) == ""
  {
    assert docs[..0] == [];
    assert !Fits(docs, 0);
  }

  /** A document after the first failing one is never added, even when it would fit. */
  lemma ContextIsPrefix(docs: seq<Document>, extra: seq<Document>)
    requires Stop(docs) < |docs|
    ensures Context(docs + extra) == Context(docs)
  {
    var j := Stop(docs);
    forall k | 0 <= k <= j
      ensures (docs + extra)[..k] == docs[..k]
    {
    }
    forall k | 0 <= k < j
      ensures Fits(docs + extra, k)
    {
      assert Fits(docs, k);
    }
    assert !Fits(docs, j);
    StopUnique(docs + extra, j);
  }

  // ---------------------------------------------------------------------------
  // query_all_collections (src/ollama_utils/answer.py:35-50)

  /** The concatenation of each collection's first result list, in the listed order;
      `None` as soon as one query raises (the exception propagates). */
  function AllResults(names: seq<string>, query: string -> Option<seq<string>>): Option<seq<string>> {
    if names == [] then Some([])
    else
      match AllResults(names[..|names| - 1], query)
      case None => None
      case Some(prior) =>
        match query(names[|names| - 1])
        case None => None
        case Some(first) => Some(prior + first)
  }

  /** `all_results.extend(results['documents'][0])` for every listed collection. */
  method QueryAllCollections(names: seq<string>, query: string -> Option<seq<string>>)
    returns (r: Option<seq<string>>)
    ensures r == AllResults(names, query)
  {
    var allResults: seq<string> := [];
    for i := 0 to |names|
      invariant AllResults(names[..i], query) == Some(allResults)
    {
      assert names[..i + 1][..i] == names[..i];
      var results := query(names[i]);
      if results.None? {
        NoneExtends(names, query, i + 1);
        return None;
      }
      allResults := allResults + results.value;
    }
    assert names[..|names|] == names;
    return Some(allResults);
  }

  lemma {:induction false} NoneExtends(names: seq<string>, query: string -> Option<seq<string>>, k: nat)
    requires k <= |names| && AllResults(names[..k], query).None?
    ensures AllResults(names, query).None?
  {
    if k < |names| {
      var n := |names| - 1;
      assert names[..n][..k] == names[..k];
      NoneExtends(names[..n], query, k);
    } else {
      assert names[..k] == names;
    }
  }

  /** The results of consecutive collection lists are the concatenation of their results. */
  lemma {:induction false} AllResultsAppend(a: seq<string>, b: seq<string>, query: string -> Option<seq<string>>)
    requires AllResults(a, query).Some? && AllResults(b, query).Some?
    ensures AllResults(a + b, query) == Some(AllResults(a, query).value + AllResults(b, query).value)
  {
    if b == [] {
      assert a + b == a;
      assert AllResults(a, query).value + [] == AllResults(a, query).value;
    } else {
      var n := |b| - 1;
      assert (a + b)[..|a + b| - 1] == a + b[..n];
      assert AllResults(b[..n], query).Some?;
      AllResultsAppend(a, b[..n], query);
      assert (a + b)[|a + b| - 1] == b[n];
      var head, mid, last := AllResults(a, query).value, AllResults(b[..n], query).value, query(b[n]).value;
      assert head + mid + last == head + (mid + last);
    }
  }

  // ---------------------------------------------------------------------------
  // The replies of answer_question

  /** What `answer_question` returns: the language model's answer or one of the fixed messages. */
  datatype Reply = Answer(text: string) | NoRelevantInformation | NoAnswer | NoAccess

  function Message(r: Reply): string {
    match r
    case Answer(text) => text
    case NoRelevantInformation => "Sorry, I couldn't find any relevant information to answer that question."
    case NoAnswer => "Sorry, I couldn't find an answer to that question."
    case NoAccess => "Sorry, I couldn't access the necessary information to answer that question."
  }

  /** A reply whose message is not ambiguous: the model's answer is none of the fixed messages. */
  predicate Unambiguous(r: Reply) {
    r.Answer? ==>
      r.text != Message(NoRelevantInformation) && r.text != Message(NoAnswer) && r.text != Message(NoAccess)
  }

  /** A reply can be read back from its message when the model's answer is not a fixed one. */
  lemma MessageInjective(r1: Reply, r2: Reply)
    requires Unambiguous(r1) && Unambiguous(r2)
    ensures Message(r1) == Message(r2) ==> r1 == r2
  {
  }

  /** Opening a collection and counting it: `ValueError`, another exception, or its count. */
  datatype Access = Missing | Failed | Count(n: nat)

  /** The collaborators the model abstracts: whether the setup calls (embedding test, client,
      model) succeed, the collection listing, each collection's access, the retriever over a list
      of collections and the question-answering chain over the question and the context; `None`
      wherever the call raises. */
  datatype Services = Services(
    setupOk: bool,
    listed: Option<seq<string>>,
    access: string -> Access,
    retrieve: seq<string> -> Option<seq<Document>>,
    qa: (string, string) -> Option<string>)

  /** The collections that become retrievers: count above zero, `ValueError` skipped;
      `None` when an access raises anything else. */
  function Retrievers(names: seq<string>, access: string -> Access): Option<seq<string>> {
    if names == [] then Some([])
    else
      match Retrievers(names[..|names| - 1], access)
      case None => None
      case Some(prior) =>
        match access(names[|names| - 1])
        case Missing => Some(prior)
        case Failed => None
        case Count(n) => if n > 0 then Some(prior + [names[|names| - 1]]) else Some(prior)
  }

  /** Exactly the collections with a positive count are retrievers, in the listed order. */
  lemma {:induction false} RetrieversExactly(names: seq<string>, access: string -> Access)
    requires Retrievers(names, access).Some?
    ensures var rs := Retrievers(names, access).value;
            && (forall x :: x in rs <==> x in names && access(x).Count? && access(x).n > 0)
            && |rs| <= |names|
  {
    if names != [] {
      RetrieversExactly(names[..|names| - 1], access);
    }
  }

  /** A collection whose access raises something other than `ValueError` aborts the request. */
  lemma {:induction false} RetrieversFail(names: seq<string>, access: string -> Access)
    ensures Retrievers(names, access).None? <==> exists k | 0 <= k < |names| :: access(names[k]).Failed?
  {
    if names != [] {
      var n := |names| - 1;
      RetrieversFail(names[..n], access);
      if access(names[n]).Failed? {
        assert access(names[n]).Failed?;
      }
      if exists k | 0 <= k < n :: access(names[..n][k]).Failed? {
        var k :| 0 <= k < n && access(names[..n][k]).Failed?;
        assert names[k] == names[..n][k];
      }
      if exists k | 0 <= k < |names| :: access(names[k]).Failed? {
        var k :| 0 <= k < |names| && access(names[k]).Failed?;
        if k < n {
          assert names[..n][k] == names[k];
        }
      }
    }
  }

  /** The reply once the documents are retrieved: none is the relevant-information message,
      otherwise the chain's answer over the assembled context. */
  function ReplyFor(question: string, docs: Option<seq<Document>>, qa: (string, string) -> Option<string>): Reply {
    match docs
    case None => NoAnswer
    case Some(ds) =>
      if ds == [] then NoRelevantInformation
      else
        match qa(question, Context(ds))
        case None => NoAnswer
        case Some(text) => Answer(text)
  }

  /** src/ollama_utils/answer.py:58-154 as a decision over the collaborators' results. */
  function AllCollectionsReply(question: string, s: Services): Reply {
    if !s.setupOk then NoAnswer
    else
      match s.listed
      case None => NoAnswer
      case Some(names) =>
        if names == [] then NoRelevantInformation
        else
          match Retrievers(names, s.access)
          case None => NoAnswer
          case Some(rs) =>
            if rs == [] then NoRelevantInformation else ReplyFor(question, s.retrieve(rs), s.qa)
  }

  /** src/ollama_utils/answer.py:58-154: list the collections, build a retriever per non-empty
      collection (skipping those that raise `ValueError`), retrieve, assemble the context and
      ask the chain; `database_ids` is not consulted. */
  method AnswerQuestion(question: string, databaseIds: seq<string>, s: Services) returns (reply: Reply)
    ensures reply == AllCollectionsReply(question, s)
  {
    if !s.setupOk || s.listed.None? {
      return NoAnswer;
    }
    var collectionNames := s.listed.value;
    if collectionNames == [] {
      return NoRelevantInformation;
    }
    var retrievers: seq<string> := [];
    for i := 0 to |collectionNames|
      invariant Retrievers(collectionNames[..i], s.access) == Some(retrievers)
    {
      assert collectionNames[..i + 1][..i] == collectionNames[..i];
      var name := collectionNames[i];
      match s.access(name) {
        case Missing =>
        case Failed =>
          RetrieversNoneExtends(collectionNames, s.access, i + 1);
          return NoAnswer;
        case Count(docCount) =>
          if docCount > 0 {
            retrievers := retrievers + [name];
          }
      }
    }
    assert collectionNames[..|collectionNames|] == collectionNames;
    if retrievers == [] {
      return NoRelevantInformation;
    }
    var retrievedDocs := s.retrieve(retrievers);
    if retrievedDocs.None? {
      return NoAnswer;
    }
    if retrievedDocs.value == [] {
      return NoRelevantInformation;
    }
    var context := AssembleContext(retrievedDocs.value);
    var result := s.qa(question, context);
    if result.None? {
      return NoAnswer;
    }
    return Answer(result.value);
  }

  lemma {:induction false} RetrieversNoneExtends(names: seq<string>, access: string -> Access, k: nat)
    requires k <= |names| && Retrievers(names[..k], access).None?
    ensures Retrievers(names, access).None?
  {
    if k < |names| {
      var n := |names| - 1;
      assert names[..n][..k] == names[..k];
      RetrieversNoneExtends(names[..n], access, k);
    } else {
      assert names[..k] == names;
    }
  }

  /** When src/ollama_utils/answer.py gives the relevant-information message: set up fine, and no
      collection, no retriever, or no document retrieved. */
  lemma AllCollectionsNoInformation(question: string, s: Services)
    ensures AllCollectionsReply(question, s) == NoRelevantInformation
            <==> && s.setupOk && s.listed.Some?
                 && (|| s.listed.value == []
                     || Retrievers(s.listed.value, s.access) == Some([])
                     || (&& Retrievers(s.listed.value, s.access).Some?
                         && Retrievers(s.listed.value, s.access).value != []
                         && s.retrieve(Retrievers(s.listed.value, s.access).value) == Some([])))
  {
  }

  /** An answer is always the chain's output over the retrieved documents' context. */
  lemma AllCollectionsAnswered(question: string, s: Services)
    requires AllCollectionsReply(question, s).Answer?
    ensures s.listed.Some? && Retrievers(s.listed.value, s.access).Some?
    ensures var rs := Retrievers(s.listed.value, s.access).value;
            && rs != [] && s.retrieve(rs).Some? && s.retrieve(rs).value != []
            && s.qa(question, Context(s.retrieve(rs).value)) == Some(AllCollectionsReply(question, s).text)
  {
  }

  // ---------------------------------------------------------------------------
  // The single-collection answer_question (src/ollama/answer.py:58-142)

  const FactsCollection: string := "notion_8d5dc8537d04457fa92a543a83ac397b"

  /** src/ollama/answer.py:58-142 as a decision: only the fixed collection is opened. */
  function FactsReply(question: string, s: Services): Reply {
    if !s.setupOk then NoAnswer
    else
      match s.access(FactsCollection)
      case Missing => NoAccess
      case Failed => NoAnswer
      case Count(n) =>
        if n == 0 then NoRelevantInformation
        else ReplyFor(question, s.retrieve([FactsCollection]), s.qa)
  }

  /** src/ollama/answer.py:58-142: open the fixed collection, refuse when it is missing (`ValueError`)
      or empty, retrieve, assemble the context and ask the chain. */
  method FactsAnswerQuestion(question: string, databaseIds: seq<string>, s: Services) returns (reply: Reply)
    ensures reply == FactsReply(question, s)
  {
    if !s.setupOk {
      return NoAnswer;
    }
    var collectionName := FactsCollection;
    match s.access(collectionName) {
      case Missing =>
        return NoAccess;
      case Failed =>
        return NoAnswer;
      case Count(docCount) =>
        if docCount == 0 {
          return NoRelevantInformation;
        }
    }
    var retrievedDocs := s.retrieve([collectionName]);
    if retrievedDocs.None? {
      return NoAnswer;
    }
    if retrievedDocs.value == [] {
      return NoRelevantInformation;
    }
    var context := AssembleContext(retrievedDocs.value);
    var result := s.qa(question, context);
    if result.None? {
      return NoAnswer;
    }
    return Answer(result.value);
  }

  /** The reply depends only on the fixed collection: two services that agree on it give the same
      reply (the listing and every other collection are never looked at). */
  lemma FactsOnlyFixedCollection(question: string, s: Services, t: Services)
    requires s.setupOk == t.setupOk && s.access(FactsCollection) == t.access(FactsCollection)
    requires s.retrieve([FactsCollection]) == t.retrieve([FactsCollection]) && s.qa == t.qa
    ensures FactsReply(question, s) == FactsReply(question, t)
  {
  }

  /** The access refusal is given exactly when opening the fixed collection raised `ValueError`. */
  lemma FactsNoAccess(question: string, s: Services)
    ensures FactsReply(question, s) == NoAccess <==> s.setupOk && s.access(FactsCollection).Missing?
  {
  }

  /** The relevant-information message: the fixed collection is empty, or nothing was retrieved. */
  lemma FactsNoInformation(question: string, s: Services)
    ensures FactsReply(question, s) == NoRelevantInformation
            <==> && s.setupOk && s.access(FactsCollection).Count?
                 && (s.access(FactsCollection).n == 0 || s.retrieve([FactsCollection]) == Some([]))
  {
  }

  // ---------------------------------------------------------------------------
  // extract_metadata (src/ollama_utils/answer.py:156-172, src/ollama/answer.py:144-160)

  /** `text[start:end]`, which is empty when `start > end`. */
  function Slice(text: string, start: nat, end: nat): string
    requires start <= |text| && end <= |text|
  {
    if start <= end then text[start..end] else ""
  }

  /** The cleaned text and the parsed metadata; `parse` is `json.loads`, `None` where it raises
      (as it always does on the empty text). */
  function ExtractMetadata(text: string, parse: string -> Option<map<string, Value>>): (r: (string, map<string, Value>))
    requires parse("") == None
    ensures ('{' !in text || '}' !in text) ==> r == (text, map[])
  {
    var first := FindFirst(text, '{');
    var last := FindLast(text, '}');
    if first.None? || last.None? then (text, map[])
    else
      var start, end := first.value, last.value + 1;
      match parse(Slice(text, start, end))
      case None => (text, map[])
      case Some(metadata) => (Strip(text[..start]) + " " + Strip(text[end..]), metadata)
  }

  /** With `start` the first `{` and `end` one past the last `}`: a failed parse gives the text
      back unchanged with no metadata; a successful one gives the metadata and the stripped text
      before `start` and after `end`, joined by one space. */
  lemma ExtractMetadataSlices(text: string, parse: string -> Option<map<string, Value>>, start: nat, end: nat)
    requires parse("") == None
    requires start < |text| && text[start] == '{' && forall k | 0 <= k < start :: text[k] != '{'
    requires 0 < end <= |text| && text[end - 1] == '}' && forall k | end <= k < |text| :: text[k] != '}'
    ensures parse(Slice(text, start, end)).None? ==> ExtractMetadata(text, parse) == (text, map[])
    ensures parse(Slice(text, start, end)).Some? ==>
              ExtractMetadata(text, parse)
              == (Strip(text[..start]) + " " + Strip(text[end..]), parse(Slice(text, start, end)).value)
  {
    var f := FindFirst(text, '{');
    var l := FindLast(text, '}');
    assert text[start] in text && text[end - 1] in text;
    assert f.value == start;
    assert l.value == end - 1;
  }

  /** A last `}` before the first `{` leaves an empty slice, which never parses: the text comes
      back unchanged with no metadata. */
  lemma ExtractMetadataReversedBraces(text: string, parse: string -> Option<map<string, Value>>, start: nat, end: nat)
    requires parse("") == None
    requires start < |text| && text[start] == '{' && forall k | 0 <= k < start :: text[k] != '{'
    requires 0 < end <= |text| && text[end - 1] == '}' && forall k | end <= k < |text| :: text[k] != '}'
    requires end <= start
    ensures ExtractMetadata(text, parse) == (text, map[])
  {
    assert Slice(text, start, end) == "";
    ExtractMetadataSlices(text, parse, start, end);
  }
}
