/** Entities handled by the window retriever: search hits, the per-document
    aggregation entries (the values of doc_map), the two output views and the
    store gateway the retriever talks to. */
module RetrieverTypes {

  datatype Option<T> = None | Some(value: T)

  /** Document and chunk identifiers are opaque strings. */
  type Uuid = string

  /** The document's metadata bag; only its emptiness is inspected. */
  type Metadata = map<string, string>

  /** One hit of the hybrid search: a chunk with its raw relevance score. */
  datatype Hit = Hit(uuid: string, docUuid: Uuid, chunkId: int, content: string, score: real)

  /** What get_document returns for a document it knows. */
  datatype DocInfo = DocInfo(title: string, metadata: Metadata)

  /** A chunk as returned by get_chunk_by_ids. */
  datatype StoredChunk = StoredChunk(uuid: string, chunkId: int, content: string)

  /** A chunk held in a document's entry of doc_map. */
  datatype Chunk = Chunk(uuid: string, score: real, chunkId: int, content: string)

  /** The value doc_map holds for one document. */
  datatype Entry = Entry(title: string, chunks: seq<Chunk>, score: real, metadata: Metadata)

  /** A chunk of the returned document list: the context chunk without its content. */
  datatype ChunkRef = ChunkRef(uuid: string, score: real, chunkId: int)

  /** An element of the returned document list. */
  datatype Document = Document(title: string, chunks: seq<ChunkRef>, score: real, metadata: Metadata, uuid: Uuid)

  /** An element of the list the context text is rendered from. */
  datatype ContextDocument = ContextDocument(title: string, chunks: seq<Chunk>, score: real, uuid: Uuid, metadata: Metadata)

  /** The configuration values read by retrieve, already converted with int(). */
  datatype Config = Config(searchMode: string, limitMode: string, limit: int, chunkWindow: int, threshold: int)

  /** The arguments of the hybrid search call. */
  datatype SearchRequest = SearchRequest(
    query: string, vector: seq<real>, limitMode: string, limit: int,
    labels: Option<seq<string>>, documentUuids: Option<seq<string>>)

  /** The vector-database manager, as the three read-only calls retrieve makes. */
  datatype Store = Store(
    hybridChunks: SearchRequest -> seq<Hit>,
    getDocument: Uuid -> Option<DocInfo>,
    getChunkByIds: (Uuid, set<int>) -> seq<StoredChunk>)

  /** What retrieve returns, the ZeroDivisionError raised by normalize_value,
      or the UnboundLocalError raised when no search ran and `chunks` was
      never assigned. */
  datatype Outcome = Ok(documents: seq<Document>, context: string) | ZeroDivision | UnboundChunks

  /** A context chunk seen through the document view. */
  function RefOf(c: Chunk): ChunkRef {
    ChunkRef(c.uuid, c.score, c.chunkId)
  }

  /** The set of chunk ids of a chunk list. */
  function Ids(chunks: seq<Chunk>): set<int> {
    set c | c in chunks :: c.chunkId
  }
}
