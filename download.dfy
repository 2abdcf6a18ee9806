/** Notion pages to documents: src/notion/download.py. The Notion client is plain data:
    the responses of `databases.query`, `blocks.children.list` and `pages.retrieve`,
    each `None` where the call raises. */
module Download {
  import opened Wrappers
  import opened Values
  import opened Metadata

  /** One rich-text run; only its `plain_text` is read. */
  datatype RichText = RichText(plainText: string)

  /** A page property by its `type`: a title, a relation (the related page ids), or any other
      type, whose `prop_value[type]` payload is kept as it is. */
  datatype PropertyValue =
    | TitleProp(title: seq<RichText>)
    | RelationProp(relation: seq<string>)
    | OtherProp(payload: Value)

  /** `page['properties'].items()`, in dict order. */
  type Properties = seq<(string, PropertyValue)>

  datatype Page = Page(id: string, url: string, properties: Properties)

  /** One `databases.query` response. */
  datatype QueryResponse = QueryResponse(results: seq<Page>, hasMore: bool, nextCursor: Option<string>)

  /** A child block: only paragraphs carry text here. */
  datatype Block = Paragraph(richText: seq<RichText>) | OtherBlock

  /** The Notion API as the model sees it. */
  datatype Client = Client(
    query: (string, Option<string>) -> Option<QueryResponse>,
    children: string -> Option<seq<Block>>,
    retrieve: string -> Option<Properties>)

  // ---------------------------------------------------------------------------
  // get_relation_names (lines 96-110)

  /** The first property of type title among a retrieved page's properties. */
  function FirstTitle(ps: Properties): (r: Option<seq<RichText>>)
    ensures r.None? <==> forall k | 0 <= k < |ps| :: !ps[k].1.TitleProp?
    ensures r.Some? ==> exists k | 0 <= k < |ps| :: ps[k].1 == TitleProp(r.value)
                                              && forall l | 0 <= l < k :: !ps[l].1.TitleProp?
  {
    if ps == [] then None
    else if ps[0].1.TitleProp? then Some(ps[0].1.title)
    else
      var r := FirstTitle(ps[1..]);
      assert forall k | 1 <= k < |ps| :: ps[k] == ps[1..][k - 1];
      if r.Some? then
        var k :| 0 <= k < |ps[1..]| && ps[1..][k].1 == TitleProp(r.value)
                 && forall l | 0 <= l < k :: !ps[1..][l].1.TitleProp?;
        assert ps[k + 1].1 == TitleProp(r.value);
        r
      else r
  }

  /** The name recorded for one related page: `'Error'` when retrieval raised, `'Untitled'` when
      there is no title property or its title is empty, else the title's first `plain_text`. */
  function RelationName(retrieved: Option<Properties>): string {
    match retrieved
    case None => "Error"
    case Some(ps) =>
      match FirstTitle(ps)
      case None => "Untitled"
      case Some(t) => if |t| == 0 then "Untitled" else t[0].plainText
  }

  /** One name per id, in order. */
  function RelationNames(client: Client, ids: seq<string>): (r: seq<string>)
    ensures |r| == |ids|
    ensures forall i | 0 <= i < |ids| :: r[i] == RelationName(client.retrieve(ids[i]))
  {
    seq(|ids|, i requires 0 <= i < |ids| => RelationName(client.retrieve(ids[i])))
  }

  /** Lines 96-110: one name per related id; a failed retrieval is recorded, not raised. */
  method GetRelationNames(client: Client, relationIds: seq<string>) returns (names: seq<string>)
    ensures names == RelationNames(client, relationIds)
  {
    names := [];
    for i := 0 to |relationIds|
      invariant names == RelationNames(client, relationIds[..i])
    {
      var page := client.retrieve(relationIds[i]);
      if page.None? {
        names := names + ["Error"];
      } else {
        var titleProperty := FirstTitle(page.value);
        if titleProperty.Some? {
          var name := if |titleProperty.value| > 0 then titleProperty.value[0].plainText else "Untitled";
          names := names + [name];
        } else {
          names := names + ["Untitled"];
        }
      }
    }
    assert relationIds[..|relationIds|] == relationIds;
  }

  /** The name lemma of `get_relation_names` in both directions: a name other than the two
      fallbacks is the first title text of the related page. */
  lemma RelationNameCases(retrieved: Option<Properties>)
    ensures retrieved.None? ==> RelationName(retrieved) == "Error"
    ensures retrieved.Some? && (forall k | 0 <= k < |retrieved.value| :: !retrieved.value[k].1.TitleProp?)
            ==> RelationName(retrieved) == "Untitled"
    ensures retrieved.Some? && FirstTitle(retrieved.value) == Some([]) ==> RelationName(retrieved) == "Untitled"
    ensures RelationName(retrieved) != "Error" && RelationName(retrieved) != "Untitled"
            ==> retrieved.Some? && FirstTitle(retrieved.value).Some?
                && |FirstTitle(retrieved.value).value| > 0
                && RelationName(retrieved) == FirstTitle(retrieved.value).value[0].plainText
  {
  }

  // ---------------------------------------------------------------------------
  // extract_page_content (lines 86-94)

  /** What one block adds to the page text: a paragraph's first run, else nothing. */
  function BlockText(b: Block): string {
    if b.Paragraph? && |b.richText| > 0 then b.richText[0].plainText else ""
  }

  /** The page text: the blocks' texts concatenated, with no separator. */
  function PageText(blocks: seq<Block>): string {
    if blocks == [] then "" else PageText(blocks[..|blocks| - 1]) + BlockText(blocks[|blocks| - 1])
  }

  /** The text of consecutive block lists is the concatenation of their texts. */
  lemma {:induction false} PageTextAppend(a: seq<Block>, b: seq<Block>)
    ensures PageText(a + b) == PageText(a) + PageText(b)
  {
    if b == [] {
      assert a + b == a;
    } else {
      var front, last := b[..|b| - 1], b[|b| - 1];
      calc {
        PageText(a + b);
      == { assert (a + b)[..|a + b| - 1] == a + front; assert (a + b)[|a + b| - 1] == last; }
        PageText(a + front) + BlockText(last);
      == { PageTextAppend(a, front); }
        (PageText(a) + PageText(front)) + BlockText(last);
      ==
        PageText(a) + (PageText(front) + BlockText(last));
      }
    }
  }

  /** Blocks that are not paragraphs, or whose text is empty, add nothing. */
  lemma SilentBlocks(a: seq<Block>, b: Block, c: seq<Block>)
    requires !b.Paragraph? || |b.richText| == 0
    ensures PageText(a + [b] + c) == PageText(a + c)
  {
    PageTextAppend(a + [b], c);
    PageTextAppend(a, c);
    assert (a + [b])[..|a|] == a;
  }

  /** Lines 86-94: `None` when listing the children raised. */
  method ExtractPageContent(client: Client, pageId: string) returns (r: Option<string>)
    ensures client.children(pageId).None? ==> r.None?
    ensures client.children(pageId).Some? ==> r == Some(PageText(client.children(pageId).value))
  {
    var blocks := client.children(pageId);
    if blocks.None? {
      return None;
    }
    var results := blocks.value;
    var content := "";
    for i := 0 to |results|
      invariant content == PageText(results[..i])
    {
      assert results[..i + 1][..i] == results[..i];
      var block := results[i];
      if block.Paragraph? {
        content := content + (if |block.richText| > 0 then block.richText[0].plainText else "");
      }
    }
    assert results[..|results|] == results;
    return Some(content);
  }

  // ---------------------------------------------------------------------------
  // Page metadata (lines 48-66)

  /** `prop_value['title'][0]['plain_text'] if prop_value['title'] else ''`. */
  function TitleText(t: seq<RichText>): string {
    if |t| > 0 then t[0].plainText else ""
  }

  /** The title text the property loop leaves: the last title property's. */
  function TitleOf(ps: Properties): Option<string> {
    if ps == [] then None
    else
      var p := ps[|ps| - 1];
      if p.1.TitleProp? then Some(TitleText(p.1.title)) else TitleOf(ps[..|ps| - 1])
  }

  /** The value stored in `notion_properties` for a non-title property. */
  function PropertyEntry(client: Client, v: PropertyValue): Value {
    match v
    case TitleProp(_) => VNone
    case RelationProp(ids) =>
      var names := RelationNames(client, ids);
      VList(seq(|names|, i requires 0 <= i < |names| => VStr(names[i])))
    case OtherProp(payload) => payload
  }

  /** The `notion_properties` dict the property loop fills. */
  function NotionProperties(client: Client, ps: Properties): map<string, Value> {
    if ps == [] then map[]
    else
      var p := ps[|ps| - 1];
      var prior := NotionProperties(client, ps[..|ps| - 1]);
      if p.1.TitleProp? then prior else prior[p.0 := PropertyEntry(client, p.1)]
  }

  /** The metadata built for a page. */
  function PageMetadataOf(client: Client, page: Page): (r: Value)
    ensures r.VDict?
    ensures "notion_id" in r.entries && r.entries["notion_id"] == VStr(page.id)
    ensures "notion_url" in r.entries && r.entries["notion_url"] == VStr(page.url)
    ensures "notion_properties" in r.entries && r.entries["notion_properties"].VDict?
    ensures ("name" in r.entries) == ("title" in r.entries) == TitleOf(page.properties).Some?
    ensures "name" in r.entries ==> r.entries["name"] == r.entries["title"] == VStr(TitleOf(page.properties).value)
  {
    var base := map["notion_id" := VStr(page.id), "notion_url" := VStr(page.url),
                     "notion_properties" := VDict(NotionProperties(client, page.properties))];
    match TitleOf(page.properties)
    case None => VDict(base)
    case Some(t) => VDict(base["title" := VStr(t)]["name" := VStr(t)])
  }

  /** The names in a property list are pairwise distinct, as the keys of a dict are. */
  predicate DistinctNames(ps: Properties) {
    forall k, l | 0 <= k < l < |ps| :: ps[k].0 != ps[l].0
  }

  /** Lines 58-66, property by property: a title does not enter `notion_properties`, a relation
      enters as its related pages' names, any other type as its payload. */
  lemma {:induction false} PropertyMapping(client: Client, ps: Properties, k: nat)
    requires DistinctNames(ps) && k < |ps|
    ensures var props := NotionProperties(client, ps);
            && (ps[k].1.TitleProp? ==> ps[k].0 !in props)
            && (!ps[k].1.TitleProp? ==> ps[k].0 in props && props[ps[k].0] == PropertyEntry(client, ps[k].1))
  {
    var n := |ps| - 1;
    if k < n {
      assert DistinctNames(ps[..n]);
      PropertyMapping(client, ps[..n], k);
      assert ps[..n][k] == ps[k];
    } else if ps[k].1.TitleProp? {
      NotInPrefix(client, ps[..n], ps[k].0);
    }
  }

  /** A name that no property of `ps` has is not a key of its `notion_properties`. */
  lemma {:induction false} NotInPrefix(client: Client, ps: Properties, name: string)
    requires forall k | 0 <= k < |ps| :: ps[k].0 != name
    ensures name !in NotionProperties(client, ps)
  {
    if ps != [] {
      NotInPrefix(client, ps[..|ps| - 1], name);
    }
  }

  /** Line 59: with one title property, `title` (and `name`) is its first text or `''`. */
  lemma {:induction false} TitleFromOnlyTitle(ps: Properties, k: nat)
    requires k < |ps| && ps[k].1.TitleProp?
    requires forall l | 0 <= l < |ps| && l != k :: !ps[l].1.TitleProp?
    ensures TitleOf(ps) == Some(TitleText(ps[k].1.title))
  {
    var n := |ps| - 1;
    if k < n {
      assert ps[..n][k] == ps[k];
      TitleFromOnlyTitle(ps[..n], k);
    }
  }

  /** No title property: no `title` and no `name`. */
  lemma {:induction false} NoTitle(ps: Properties)
    requires forall l | 0 <= l < |ps| :: !ps[l].1.TitleProp?
    ensures TitleOf(ps) == None
  {
    if ps != [] {
      NoTitle(ps[..|ps| - 1]);
    }
  }

  /** Lines 56-66: the property loop, filling `metadata` and its `notion_properties` in place. */
  method PageMetadata(client: Client, page: Page) returns (metadata: Value)
    ensures metadata == PageMetadataOf(client, page)
  {
    var md: map<string, Value> := map["notion_id" := VStr(page.id), "notion_url" := VStr(page.url)];
    var props: map<string, Value> := map[];
    var title: Option<string> := None;
    var ps := page.properties;
    for k := 0 to |ps|
      invariant props == NotionProperties(client, ps[..k])
      invariant title == TitleOf(ps[..k])
      invariant title.None? ==> md == map["notion_id" := VStr(page.id), "notion_url" := VStr(page.url)]
      invariant title.Some? ==> md == map["notion_id" := VStr(page.id), "notion_url" := VStr(page.url)]
                                        ["title" := VStr(title.value)]["name" := VStr(title.value)]
    {
      assert ps[..k + 1][..k] == ps[..k];
      var (propName, propValue) := ps[k];
      match propValue {
        case TitleProp(t) =>
          var text := if |t| > 0 then t[0].plainText else "";
          md := md["title" := VStr(text)];
          md := md["name" := md["title"]];
          title := Some(text);
        case RelationProp(relationIds) =>
          var relationNames := GetRelationNames(client, relationIds);
          props := props[propName := VList(seq(|relationNames|, i requires 0 <= i < |relationNames| => VStr(relationNames[i])))];
        case OtherProp(payload) =>
          props := props[propName := payload];
      }
    }
    assert ps[..|ps|] == ps;
    metadata := VDict(md["notion_properties" := VDict(props)]);
  }

  // ---------------------------------------------------------------------------
  // extract_notion_docs (lines 19-84)

  /** The document made from one page; `None` when listing its blocks raised. */
  function DocOf(client: Client, page: Page): Option<Document> {
    match client.children(page.id)
    case None => None
    case Some(blocks) => Some(Document(PageText(blocks), PageMetadataOf(client, page)))
  }

  /** The documents of one response's pages, in order; `None` if any page raised. */
  function DocsOf(client: Client, pages: seq<Page>): Option<seq<Document>> {
    if pages == [] then Some([])
    else
      match DocsOf(client, pages[..|pages| - 1])
      case None => None
      case Some(ds) =>
        match DocOf(client, pages[|pages| - 1])
        case None => None
        case Some(d) => Some(ds + [d])
  }

  /** `prefix + rest` when there is a rest. */
  function Then(prefix: seq<Document>, r: Option<seq<Document>>): Option<seq<Document>> {
    match r
    case None => None
    case Some(rest) => Some(prefix + rest)
  }

  /** The `while has_more` loop ends within `n` queries from `cursor`: a query raises, a page
      raises, or a response says `has_more` is false. */
  predicate Runs(client: Client, databaseId: string, cursor: Option<string>, n: nat)
    decreases n
  {
    n > 0 &&
    match client.query(databaseId, cursor)
    case None => true
    case Some(resp) =>
      DocsOf(client, resp.results).None? || !resp.hasMore || Runs(client, databaseId, resp.nextCursor, n - 1)
  }

  /** The documents the loop collects from `cursor` on; `None` on any raise (no partial list). */
  function Fetch(client: Client, databaseId: string, cursor: Option<string>, n: nat): Option<seq<Document>>
    requires Runs(client, databaseId, cursor, n)
    decreases n
  {
    match client.query(databaseId, cursor)
    case None => None
    case Some(resp) =>
      match DocsOf(client, resp.results)
      case None => None
      case Some(batch) =>
        if !resp.hasMore then Some(batch) else Then(batch, Fetch(client, databaseId, resp.nextCursor, n - 1))
  }

  /** The pages the successive queries return, from `cursor` until `has_more` is false. */
  function PagesFrom(client: Client, databaseId: string, cursor: Option<string>, n: nat): seq<Page>
    requires Runs(client, databaseId, cursor, n)
    decreases n
  {
    match client.query(databaseId, cursor)
    case None => []
    case Some(resp) =>
      if DocsOf(client, resp.results).None? || !resp.hasMore then resp.results
      else resp.results + PagesFrom(client, databaseId, resp.nextCursor, n - 1)
  }

  /** A successful page conversion gives one document per page, in page order. */
  lemma {:induction false} DocsOfPages(client: Client, pages: seq<Page>)
    requires DocsOf(client, pages).Some?
    ensures var ds := DocsOf(client, pages).value;
            && |ds| == |pages|
            && forall i | 0 <= i < |pages| :: DocOf(client, pages[i]) == Some(ds[i])
  {
    if pages != [] {
      DocsOfPages(client, pages[..|pages| - 1]);
    }
  }

  /** Pagination: a successful extraction is one document per page of the successive
      responses, in order. */
  lemma {:induction false} FetchPages(client: Client, databaseId: string, cursor: Option<string>, n: nat)
    requires Runs(client, databaseId, cursor, n)
    requires Fetch(client, databaseId, cursor, n).Some?
    decreases n
    ensures var ds := Fetch(client, databaseId, cursor, n).value;
            var pages := PagesFrom(client, databaseId, cursor, n);
            && |ds| == |pages|
            && forall i | 0 <= i < |pages| :: DocOf(client, pages[i]) == Some(ds[i])
  {
    var resp := client.query(databaseId, cursor).value;
    var batch := DocsOf(client, resp.results).value;
    DocsOfPages(client, resp.results);
    if resp.hasMore {
      FetchPages(client, databaseId, resp.nextCursor, n - 1);
      var rest := Fetch(client, databaseId, resp.nextCursor, n - 1).value;
      var later := PagesFrom(client, databaseId, resp.nextCursor, n - 1);
      assert Fetch(client, databaseId, cursor, n).value == batch + rest;
      assert PagesFrom(client, databaseId, cursor, n) == resp.results + later;
      PairsAppend(client, resp.results, batch, later, rest);
    }
  }

  /** Page-by-page correspondence survives concatenation. */
  lemma PairsAppend(client: Client, p1: seq<Page>, d1: seq<Document>, p2: seq<Page>, d2: seq<Document>)
    requires |p1| == |d1| && forall i | 0 <= i < |p1| :: DocOf(client, p1[i]) == Some(d1[i])
    requires |p2| == |d2| && forall i | 0 <= i < |p2| :: DocOf(client, p2[i]) == Some(d2[i])
    ensures forall i | 0 <= i < |p1 + p2| :: DocOf(client, (p1 + p2)[i]) == Some((d1 + d2)[i])
  {
    forall i | 0 <= i < |p1 + p2|
      ensures DocOf(client, (p1 + p2)[i]) == Some((d1 + d2)[i])
    {
      if i >= |p1| {
        assert (p1 + p2)[i] == p2[i - |p1|];
        assert (d1 + d2)[i] == d2[i - |p1|];
      }
    }
  }

  /** The number of queries allowed for is not part of the answer. */
  lemma {:induction false} FetchBoundFree(client: Client, databaseId: string, cursor: Option<string>, n: nat, m: nat)
    requires Runs(client, databaseId, cursor, n) && Runs(client, databaseId, cursor, m)
    ensures Fetch(client, databaseId, cursor, n) == Fetch(client, databaseId, cursor, m)
    decreases n
  {
    match client.query(databaseId, cursor)
    case None =>
    case Some(resp) =>
      if DocsOf(client, resp.results).Some? && resp.hasMore {
        FetchBoundFree(client, databaseId, resp.nextCursor, n - 1, m - 1);
      }
  }

  /** Every extracted document carries the page's id and url and a `notion_properties` dict,
      and its `name`, if any, is text (so the metadata repair may use it as page text). */
  lemma FetchedMetadata(client: Client, databaseId: string, cursor: Option<string>, n: nat, i: nat)
    requires Runs(client, databaseId, cursor, n)
    requires Fetch(client, databaseId, cursor, n).Some? && i < |Fetch(client, databaseId, cursor, n).value|
    ensures var d := Fetch(client, databaseId, cursor, n).value[i];
            var pages := PagesFrom(client, databaseId, cursor, n);
            && i < |pages|
            && d.metadata == PageMetadataOf(client, pages[i])
            && d.metadata.entries["notion_id"] == VStr(pages[i].id)
            && d.metadata.entries["notion_url"] == VStr(pages[i].url)
            && d.metadata.entries["notion_properties"].VDict?
            && NameIsText(d.metadata)
  {
    FetchPages(client, databaseId, cursor, n);
  }

  /** `if not NOTION_API_KEY`: a missing or empty key. */
  predicate HasKey(apiKey: Option<string>) {
    apiKey.Some? && apiKey.value != ""
  }

  /** Lines 41-72: the pages of one response, converted in order; `None` as soon as listing
      one page's blocks raises. */
  method ConvertPages(client: Client, results: seq<Page>) returns (r: Option<seq<Document>>)
    ensures r == DocsOf(client, results)
  {
    var batch: seq<Document> := [];
    for k := 0 to |results|
      invariant DocsOf(client, results[..k]) == Some(batch)
    {
      assert results[..k + 1][..k] == results[..k];
      var page := results[k];
      var content := ExtractPageContent(client, page.id);
      if content.None? {
        DocsNoneExtends(client, results, k + 1);
        return None;
      }
      var metadata := PageMetadata(client, page);
      batch := batch + [Document(content.value, metadata)];
    }
    assert results[..|results|] == results;
    return Some(batch);
  }

  /** One turn of the `while has_more` loop, as `Fetch` sees it. */
  lemma FetchStep(client: Client, databaseId: string, cursor: Option<string>, n: nat,
                  resp: QueryResponse, batch: seq<Document>)
    requires Runs(client, databaseId, cursor, n)
    requires client.query(databaseId, cursor) == Some(resp) && DocsOf(client, resp.results) == Some(batch)
    ensures resp.hasMore ==> n >= 1 && Runs(client, databaseId, resp.nextCursor, n - 1)
    ensures resp.hasMore ==> Fetch(client, databaseId, cursor, n)
                             == Then(batch, Fetch(client, databaseId, resp.nextCursor, n - 1))
    ensures !resp.hasMore ==> Fetch(client, databaseId, cursor, n) == Some(batch)
  {
  }

  lemma ThenAssoc(a: seq<Document>, b: seq<Document>, x: Option<seq<Document>>)
    ensures Then(a, Then(b, x)) == Then(a + b, x)
  {
    if x.Some? {
      assert a + (b + x.value) == (a + b) + x.value;
    }
  }

  lemma ThenEmpty(x: Option<seq<Document>>)
    ensures Then([], x) == x
  {
    if x.Some? {
      assert [] + x.value == x.value;
    }
  }

  /** Lines 19-84. Without a key, `None` before any query; otherwise the pages of the successive
      queries (first cursor `None`, then each response's `next_cursor`) converted in order, or
      `None` if anything raised. `bound` is a number of queries within which the loop ends. */
  method ExtractNotionDocs(client: Client, apiKey: Option<string>, databaseId: string, ghost bound: nat)
    returns (r: Option<seq<Document>>)
    requires HasKey(apiKey) ==> Runs(client, databaseId, None, bound)
    ensures !HasKey(apiKey) ==> r.None?
    ensures HasKey(apiKey) ==> r == Fetch(client, databaseId, None, bound)
  {
    if !HasKey(apiKey) {
      return None;
    }
    var docs: seq<Document> := [];
    var hasMore := true;
    var nextCursor: Option<string> := None;
    ghost var fuel := bound;
    ThenEmpty(Fetch(client, databaseId, None, bound));
    while hasMore
      invariant hasMore ==> Runs(client, databaseId, nextCursor, fuel)
      invariant hasMore ==> Fetch(client, databaseId, None, bound)
                            == Then(docs, Fetch(client, databaseId, nextCursor, fuel))
      invariant !hasMore ==> Fetch(client, databaseId, None, bound) == Some(docs)
      decreases fuel, hasMore
    {
      var response := client.query(databaseId, nextCursor);
      if response.None? {
        return None;
      }
      var batch := ConvertPages(client, response.value.results);
      if batch.None? {
        return None;
      }
      FetchStep(client, databaseId, nextCursor, fuel, response.value, batch.value);
      ThenAssoc(docs, batch.value, if response.value.hasMore
                                   then Fetch(client, databaseId, response.value.nextCursor, fuel - 1)
                                   else None);
      docs := docs + batch.value;
      hasMore := response.value.hasMore;
      nextCursor := response.value.nextCursor;
      if hasMore {
        fuel := fuel - 1;
      }
    }
    return Some(docs);
  }

  /** A page that raises spoils every longer list of pages. */
  lemma {:induction false} DocsNoneExtends(client: Client, pages: seq<Page>, k: nat)
    requires k <= |pages| && DocsOf(client, pages[..k]).None?
    ensures DocsOf(client, pages).None?
  {
    if k < |pages| {
      var n := |pages| - 1;
      assert pages[..n][..k] == pages[..k];
      DocsNoneExtends(client, pages[..n], k);
    } else {
      assert pages[..k] == pages;
    }
  }
}
