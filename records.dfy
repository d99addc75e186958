/** Value types shared by the document processor, the vector store and the
    retrieval pipeline: the chunk records that travel between them. */
module Records {

  datatype Option<+T> = None | Some(value: T)

  datatype Result<+R, +E> = Success(value: R) | Failure(error: E)

  /** The `metadata` dictionary of a chunk record. `docId` is absent until
      the store tags the record; `deleted` stands for
      `metadata.get("deleted", False)`, so an absent key reads as false. */
  datatype Metadata = Metadata(
    source: string,
    chunkId: int,
    totalChunks: int,
    docId: Option<string>,
    deleted: bool)

  /** A chunk record `{content, metadata}`. */
  datatype Chunk = Chunk(content: string, metadata: Metadata)

  /** One `(document, similarity_score)` pair returned by a search. */
  datatype ScoredChunk = ScoredChunk(chunk: Chunk, score: real)
}
