/** WindowRetriever.retrieve: search, group by document, normalise, expand
    windows, sort both output views and render the context. */
module WindowRetriever {

  import opened RetrieverTypes
  import opened RetrievalConfig
  import opened Scores
  import opened Sorting
  import opened Window
  import opened Grouping
  import opened Context

  const NoChunksMessage: string := "We couldn't find any chunks to the query"

  /** Sort keys: chunks ascend by chunk_id; documents go by descending score
      (sorted(..., reverse=True) is the stable ascending sort on -score). */
  function ChunkKey(c: Chunk): real { c.chunkId as real }
  function RefKey(c: ChunkRef): real { c.chunkId as real }
  function DocumentKey(d: Document): real { -d.score }
  function ContextDocumentKey(d: ContextDocument): real { -d.score }

  /** The element of `documents` built for one expanded entry (lines 149-179). */
  function ToDocument(uuid: Uuid, e: Entry): Document {
    Document(e.title, SortBy(MapSeq(RefOf, e.chunks), RefKey), e.score, e.metadata, uuid)
  }

  /** The element of `context_documents` built for one expanded entry. */
  function ToContextDocument(uuid: Uuid, e: Entry): ContextDocument {
    ContextDocument(e.title, SortBy(e.chunks, ChunkKey), e.score, uuid, e.metadata)
  }

  /** `documents` after the loop over doc_map has visited the ids in `order`. */
  function DocumentsOf(order: seq<Uuid>, entries: map<Uuid, Entry>, window: int, threshold: real,
                       maxScore: real, minScore: real, fetch: (Uuid, set<int>) -> seq<StoredChunk>): seq<Document>
    requires forall u :: u in order ==> u in entries
    requires order != [] ==> maxScore != minScore
  {
    if order == [] then []
    else
      var u := order[|order| - 1];
      DocumentsOf(order[..|order| - 1], entries, window, threshold, maxScore, minScore, fetch)
      + [ToDocument(u, Expand(u, entries[u], window, threshold, maxScore, minScore, fetch))]
  }

  /** `context_documents` after the loop over doc_map has visited the ids in `order`. */
  function ContextDocumentsOf(order: seq<Uuid>, entries: map<Uuid, Entry>, window: int, threshold: real,
                              maxScore: real, minScore: real, fetch: (Uuid, set<int>) -> seq<StoredChunk>): seq<ContextDocument>
    requires forall u :: u in order ==> u in entries
    requires order != [] ==> maxScore != minScore
  {
    if order == [] then []
    else
      var u := order[|order| - 1];
      ContextDocumentsOf(order[..|order| - 1], entries, window, threshold, maxScore, minScore, fetch)
      + [ToContextDocument(u, Expand(u, entries[u], window, threshold, maxScore, minScore, fetch))]
  }

  function Request(config: Config, query: string, vector: seq<real>,
                   labels: Option<seq<string>>, documentUuids: Option<seq<string>>): SearchRequest {
    SearchRequest(query, vector, config.limitMode, config.limit, labels, documentUuids)
  }

  /** doc_map is non-empty and every kept score is 0: the bounds of the score
      list coincide and normalize_value divides by zero. */
  predicate Degenerate(hits: seq<Hit>, getDocument: Uuid -> Option<DocInfo>) {
    GroupScores(hits, getDocument);
    var g := Group(hits, getDocument);
    g.order != [] && MaxOf(g.scores) == MinOf(g.scores)
  }

  /** `documents` before sorting: one per document of doc_map, in insertion order. */
  function UnsortedDocuments(config: Config, hits: seq<Hit>, store: Store): seq<Document>
    requires !Degenerate(hits, store.getDocument)
  {
    GroupScores(hits, store.getDocument);
    GroupKeys(hits, store.getDocument);
    var g := Group(hits, store.getDocument);
    DocumentsOf(g.order, g.entries, ClampWindow(config.chunkWindow), ClampThreshold(config.threshold),
                MaxOf(g.scores), MinOf(g.scores), store.getChunkByIds)
  }

  /** `context_documents` before sorting. */
  function UnsortedContextDocuments(config: Config, hits: seq<Hit>, store: Store): seq<ContextDocument>
    requires !Degenerate(hits, store.getDocument)
  {
    GroupScores(hits, store.getDocument);
    GroupKeys(hits, store.getDocument);
    var g := Group(hits, store.getDocument);
    ContextDocumentsOf(g.order, g.entries, ClampWindow(config.chunkWindow), ClampThreshold(config.threshold),
                       MaxOf(g.scores), MinOf(g.scores), store.getChunkByIds)
  }

  /** What retrieve returns when the hybrid search yields `hits`. */
  function RetrieveSpec(config: Config, hits: seq<Hit>, store: Store,
                        formatScore: real -> string, showMetadata: Metadata -> string): Outcome
  {
    if |hits| == 0 then Ok([], NoChunksMessage)
    else if Degenerate(hits, store.getDocument) then ZeroDivision
    else
      Ok(SortBy(UnsortedDocuments(config, hits, store), DocumentKey),
         ContextText(SortBy(UnsortedContextDocuments(config, hits, store), ContextDocumentKey), formatScore, showMetadata))
  }

  /** RetrieveSpec for a non-empty search, in terms of the grouping of the hits. */
  lemma RetrieveSpecGrouped(config: Config, hits: seq<Hit>, store: Store,
                            formatScore: real -> string, showMetadata: Metadata -> string)
    requires hits != []
    ensures (GroupScores(hits, store.getDocument); GroupKeys(hits, store.getDocument);
      var g := Group(hits, store.getDocument);
      var window, threshold := ClampWindow(config.chunkWindow), ClampThreshold(config.threshold);
      var maxScore, minScore := MaxOf(g.scores), MinOf(g.scores);
      if g.order != [] && maxScore == minScore then
        RetrieveSpec(config, hits, store, formatScore, showMetadata) == ZeroDivision
      else
        RetrieveSpec(config, hits, store, formatScore, showMetadata) == Ok(
          SortBy(DocumentsOf(g.order, g.entries, window, threshold, maxScore, minScore, store.getChunkByIds), DocumentKey),
          ContextText(SortBy(ContextDocumentsOf(g.order, g.entries, window, threshold, maxScore, minScore, store.getChunkByIds),
                             ContextDocumentKey), formatScore, showMetadata)))
  {
    GroupScores(hits, store.getDocument);
    GroupKeys(hits, store.getDocument);
  }

  /** The loop over doc_map (lines 116-189): expand each document and build
      both views. The first chunk normalised divides by zero when the bounds
      coincide; `divided` reports that. Every entry the grouping builds holds
      at least one chunk, so this happens at the first document. */
  method ExpandAll(order: seq<Uuid>, docMap: map<Uuid, Entry>, window: int, threshold: real,
                   maxScore: real, minScore: real, fetch: (Uuid, set<int>) -> seq<StoredChunk>)
    returns (documents: seq<Document>, contextDocuments: seq<ContextDocument>, divided: bool)
    requires forall u :: u in order ==> u in docMap
    requires forall u :: u in order ==> docMap[u].chunks != []
    ensures divided <==> order != [] && maxScore == minScore
    ensures !divided ==> documents == DocumentsOf(order, docMap, window, threshold, maxScore, minScore, fetch)
    ensures !divided ==> contextDocuments == ContextDocumentsOf(order, docMap, window, threshold, maxScore, minScore, fetch)
  {
    documents, contextDocuments, divided := [], [], false;
    var i := 0;
    while i < |order|
      invariant 0 <= i <= |order|
      invariant i > 0 ==> maxScore != minScore
      invariant documents == DocumentsOf(order[..i], docMap, window, threshold, maxScore, minScore, fetch)
      invariant contextDocuments == ContextDocumentsOf(order[..i], docMap, window, threshold, maxScore, minScore, fetch)
    {
      var doc := order[i];
      if maxScore == minScore {
        return documents, contextDocuments, true;
      }
      var expanded, _ := ExpandDocument(doc, docMap[doc], window, threshold, maxScore, minScore, fetch);
      assert order[..i + 1][..i] == order[..i];
      documents := documents + [ToDocument(doc, expanded)];
      contextDocuments := contextDocuments + [ToContextDocument(doc, expanded)];
      i := i + 1;
    }
    assert order[..i] == order;
  }

  /** retrieve (lines 47-197). Only "Hybrid Search" runs a search; under any
      other mode `chunks` is read before it is assigned. */
  method Retrieve(config: Config, query: string, vector: seq<real>, store: Store,
                  labels: Option<seq<string>>, documentUuids: Option<seq<string>>,
                  formatScore: real -> string, showMetadata: Metadata -> string)
    returns (r: Outcome)
    ensures config.searchMode != "Hybrid Search" ==> r == UnboundChunks
    ensures config.searchMode == "Hybrid Search" ==> r == RetrieveSpec(config, store.hybridChunks(Request(config, query, vector, labels, documentUuids)),
                              store, formatScore, showMetadata)
  {
    var window := ClampWindow(config.chunkWindow);
    var threshold := ClampThreshold(config.threshold);
    if config.searchMode != "Hybrid Search" {
      return UnboundChunks;
    }
    var chunks := store.hybridChunks(Request(config, query, vector, labels, documentUuids));
    if |chunks| == 0 {
      return Ok([], NoChunksMessage);
    }
    var docMap, order, scores := GroupHits(chunks, store.getDocument);
    GroupScores(chunks, store.getDocument);
    GroupKeys(chunks, store.getDocument);
    GroupEntriesWellFormed(chunks, store.getDocument);
    RetrieveSpecGrouped(config, chunks, store, formatScore, showMetadata);
    var minScore := MinOf(scores);
    var maxScore := MaxOf(scores);
    var documents, contextDocuments, divided := ExpandAll(order, docMap, window, threshold, maxScore, minScore, store.getChunkByIds);
    if divided {
      return ZeroDivision;
    }
    var sortedContextDocuments := SortBy(contextDocuments, ContextDocumentKey);
    var sortedDocuments := SortBy(documents, DocumentKey);
    var context := CombineContext(sortedContextDocuments, formatScore, showMetadata);
    r := Ok(sortedDocuments, context);
  }
}
