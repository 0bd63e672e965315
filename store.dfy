/** The per-session storage directory `sessions/{session_id}/`: the document index
    (`faiss_index`) and the conversation-memory index (`chat_history_index`) of every
    session, each present or absent. A vector index is modelled by the documents it holds,
    in insertion order; the embedding vectors and the similarity search over them are
    foreign and appear only as the `Retrieval` outcomes handed to the operations. */
module Store {
  import opened Common

  /** Metadata of a document-index entry: the `file` and `page` keys, each possibly absent. */
  datatype DocMetadata = DocMetadata(file: Option<string>, page: Option<int>)

  /** One entry of the document index, as the retriever hands it back. */
  datatype Document = Document(pageContent: string, metadata: DocMetadata)

  /** Metadata of a conversation-memory entry; every key may be absent in a loaded store. */
  datatype MemoryMetadata = MemoryMetadata(
    kind: Option<string>,
    timestamp: Option<string>,
    userQuestion: Option<string>,
    assistantAnswer: Option<string>,
    sources: Option<seq<string>>)

  /** One entry of the conversation-memory index. */
  datatype MemoryEntry = MemoryEntry(pageContent: string, metadata: MemoryMetadata)

  /** What a similarity search over an index produced: some of its entries, or an exception
      (embedding service failure, unreadable index). */
  datatype Retrieval<T> = Found(hits: seq<T>) | Failed

  /** What a similarity search may return when asked for `k` results from `index`: at most
      `k` entries, each of them an entry of that index. */
  predicate DrawnFrom<T(==)>(hits: seq<T>, index: seq<T>, k: nat)
  {
    |hits| <= k && forall i :: 0 <= i < |hits| ==> hits[i] in index
  }

  /** The `sessions/` directory. A session id that is not a key has no such index on disk. */
  class SessionStorage {
    var documentIndexes: map<string, seq<Document>>
    var memoryIndexes: map<string, seq<MemoryEntry>>

    constructor ()
      ensures documentIndexes == map[] && memoryIndexes == map[]
    {
      documentIndexes := map[];
      memoryIndexes := map[];
    }
  }
}
