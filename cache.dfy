/** The local document cache of src/notion/notion_api.py: one pickled document list per
    Notion database id, in `cache/notion/<id>.pkl`. The directory is modelled as a map from
    id to the list last saved under it. */
module Cache {
  import opened Wrappers
  import opened Values

  class NotionCache {
    var entries: map<string, seq<Document>>

    /** An empty cache directory. */
    constructor ()
      ensures entries == map[]
    {
      entries := map[];
    }

    /** Lines 28-36 (`load_docs_locally`): the stored list, or `None` when there is no file. */
    function LoadDocsLocally(databaseId: string): (r: Option<seq<Document>>)
      reads this
      ensures r.None? <==> databaseId !in entries
      ensures r.Some? ==> databaseId in entries && r.value == entries[databaseId]
    {
      if databaseId in entries then Some(entries[databaseId]) else None
    }

    /** `load_docs_from_cache` (src/ollama/ingest.py:21-26, src/ollama_utils/ingest.py:21-26):
        the same file, but `[]` when there is none. */
    function LoadDocsFromCache(databaseId: string): (r: seq<Document>)
      reads this
      ensures databaseId !in entries ==> r == []
      ensures databaseId in entries ==> r == entries[databaseId]
    {
      match LoadDocsLocally(databaseId)
      case Some(docs) => docs
      case None => []
    }

    /** Lines 19-26 (`save_docs_locally`): the file for `databaseId` is replaced wholesale;
        a later load returns exactly `docs`, and every other id loads as before. */
    method SaveDocsLocally(docs: seq<Document>, databaseId: string)
      modifies this
      ensures entries == old(entries)[databaseId := docs]
      ensures LoadDocsLocally(databaseId) == Some(docs)
      ensures forall other | other != databaseId :: LoadDocsLocally(other) == old(LoadDocsLocally(other))
    {
      entries := entries[databaseId := docs];
    }

    /** Lines 38-62 (`extract_notion_docs`): with `useCache`, a non-empty cached list is
        returned without calling the loader; otherwise (no cache, a missing file or an empty list)
        the loader runs. `loaded` is what `NotionDBLoader(...).load()` gives: `None` when it
        raised. A success is saved and returned; a failure returns `None` and leaves the cache. */
    method ExtractNotionDocs(databaseId: string, useCache: bool, loaded: Option<seq<Document>>)
      returns (r: Option<seq<Document>>, loaderCalled: bool)
      modifies this
      ensures var hit := useCache && databaseId in old(entries) && |old(entries)[databaseId]| > 0;
              && (hit ==> !loaderCalled && r == Some(old(entries)[databaseId]) && entries == old(entries))
              && (!hit ==> loaderCalled && r == loaded)
              && (!hit && loaded.Some? ==> entries == old(entries)[databaseId := loaded.value])
              && (!hit && loaded.None? ==> entries == old(entries))
    {
      if useCache {
        var cachedDocs := LoadDocsLocally(databaseId);
        if cachedDocs.Some? && |cachedDocs.value| > 0 {
          return cachedDocs, false;
        }
      }
      loaderCalled := true;
      match loaded {
        case Some(docs) =>
          SaveDocsLocally(docs, databaseId);
          r := Some(docs);
        case None =>
          r := None;
      }
    }
  }
}
