# RAG chatbot core in Dafny

This project models the retrieval-and-orchestration core of a
retrieval-augmented question-answering backend. It covers three pieces of
sequential bookkeeping:

- **Vector store** (`vector_store.dfy`, module `Store`). The class
  `VectorStore` holds three fields:
  - `documents`, an append-only list of chunk records;
  - `index`, one embedding per record, so `|index|` is the index's `ntotal`;
  - `docToChunks`, a map from document id to the positions of that document's chunks.

  `AddDocuments` tags the chunks with the document id, appends them and
  registers their positions. `DeleteDocument` is a soft delete: it flags the
  registered records as deleted and drops the map entry. `SimilaritySearch`
  post-processes the `(scores, indices)` rows the index returns. Each method
  is proved against a specification function of the old state (`AddSpec`,
  `DeleteSpec`, `SearchResults`). It also keeps the store invariant
  `Consistent`: one vector per record, and every registered document owns a
  consecutive run of existing positions whose records carry its id.
- **Query pipeline** (`rag_pipeline.dfy`, module `Pipeline`). The method
  `Query` mirrors `RAGPipeline.query`. It has two canned answers for empty
  results. It filters out soft-deleted chunks, builds one citation per
  survivor with a 200-character preview, and builds the document context.
  It keeps a window of the last four history messages and assembles the
  user prompt. Confidence is the mean score on success and 0.0 when
  generation fails.
- **Document processor** (`document_processor.dfy`, module `Processor`).
  `ProcessDocument` takes the extension as `os.path.splitext` computes it,
  lower-cases it and picks a reader; any other extension is an error. It
  then wraps the i-th piece of the split text as record i.

`text.dfy` (module `Text`) writes out the Python string operations used:
`join`, `"=" * 50`, `str(int)`, ASCII `lower`/`title`, the `strip()`
emptiness test and `rfind`. `records.dfy` holds the shared record types.
`end_to_end.dfy` states properties that span the components.

External collaborators become inputs:

- the sentence encoder is a function `embed: string -> Vector`;
- the index search is a pair of rows `scores`, `ids` of length `k`, with each
  id in `[-1, ntotal)`;
- text extraction is a function `extract: (Format, string) -> string`;
- the text splitter is a function `split: string -> seq<string>`;
- the OpenAI call is a function `generate: (string, string) -> Generation`,
  which yields either `Generated(text)` or `Failed(message)`.

Scores are `real`.

The model follows the code in these respects:

- the store's search does not drop deleted chunks; only the pipeline filters
  them, after the `k = 5` cap;
- there is no tie-breaking rule and no dimension check;
- re-using a document id overwrites its map entry;
- deleting an unknown id returns silently.

By operator precedence, the context block is `"\n\n" + "=" * 50` followed
directly by the first `[Source 1: ...]` entry. `Pipeline.ContextBlockLayout`
states this as the code builds it.

## Model

| member | source | states |
|---|---|---|
| `Store.VectorStore.constructor` | backend/vector_store.py:44-50 | a new store has no records, an empty index and no registered documents, and satisfies the store invariant |
| `Store.VectorStore.IsInitialized` | backend/vector_store.py:52-54 | the index holds a vector exactly when at least one record (deleted ones included) is stored |
| `Store.VectorStore.AddDocuments` | backend/vector_store.py:56-94 | the new state is `AddSpec` of the old one and the store invariant is kept |
| `Store.AddIsAppendOnly` | backend/vector_store.py:75-89 | adding n chunks appends exactly n records and n vectors; every earlier record and vector is unchanged; appended record i has chunk i's content and metadata with `doc_id` set |
| `Store.AddRegistersFreshRun` | backend/vector_store.py:78-92 | the document id maps to exactly `[old length, old length + n)`, and every other registered position lies below the old length, so no position is shared |
| `Store.AddPreservesConsistency` | backend/vector_store.py:75-92 | adding keeps the invariant (one vector per record; every registered run is consecutive, in range and tagged with its id), also when an id is reused |
| `Store.RegisteredRunsDisjoint` | backend/vector_store.py:78-92 | in a consistent store two different document ids never share a position |
| `Store.VectorStore.DeleteDocument` | backend/vector_store.py:131-154 | the new state is `DeleteSpec` of the old one; an unknown id leaves the state unchanged; the invariant is kept |
| `Store.DeleteMarksExactlyItsRecords` | backend/vector_store.py:143-153 | deleting a registered id sets `deleted` on exactly the records at its positions and clears no flag; it drops the id; it keeps list length, index, every content, all other metadata and all other entries |
| `Store.DeleteUnknownIsNoOp` | backend/vector_store.py:139-141 | deleting an id that is not registered changes nothing |
| `Store.DeleteIsIdempotent` | backend/vector_store.py:139-153 | after a delete the id is unregistered, so a second delete of it is a no-op |
| `Store.DeletePreservesConsistency` | backend/vector_store.py:143-153 | deleting keeps the store invariant |
| `Store.VectorStore.SimilaritySearch` | backend/vector_store.py:96-129 | on an empty store the result is `[]` whatever the index rows; otherwise it equals `SearchResults` of the rows, with at most k pairs |
| `Store.SearchAtMostK` | backend/vector_store.py:118-127 | a search returns at most as many pairs as the index returned rows |
| `Store.SearchInRankOrder` | backend/vector_store.py:118-127 | when every row index is a valid list index, pair j is the record at row j's index (Python indexing) with row j's score, in rank order, none skipped |
| `Store.PaddedRowYieldsLastRecord` | backend/vector_store.py:122-124 | a `-1` padding row passes the guard and yields the last stored record with the padding score |
| `Store.PaddingDuplicatesLastRecord` | backend/vector_store.py:118-126 | two stored records searched with k = 3: the padded third row returns the last record a second time |
| `Store.IntendedSearchSkipsPadding` | backend/vector_store.py:122-126 | the corrected search (guard `0 <= idx < len`) returns one pair per real hit and agrees with the code when no row is padding |
| `Store.TrailingPaddingIgnored` | backend/vector_store.py:122-126 | in the corrected search only the first m rows matter when every later row is padding |
| `Store.PaddingRowAddsNothing` | backend/vector_store.py:122-126 | in the corrected search an appended `-1` row adds no pair |
| `Pipeline.Query` | backend/rag_pipeline.py:47-151 | no results: the "couldn't find" answer, no sources, 0.0. All results deleted: the "deleted" answer, no sources, 0.0. Otherwise `sources` cites the live results. The prompts built from the context, history and question go to generation; success gives its text and the mean live score; failure embeds the message with confidence 0.0 |
| `Pipeline.BuildContext` | backend/rag_pipeline.py:90-104 | the numbering loop produces exactly the context entries and the citations of the survivors, one each, in order |
| `Pipeline.BuildHistoryContext` | backend/rag_pipeline.py:111-122 | the history loop produces exactly the history block: empty without history, otherwise the heading and one line per recent message |
| `Pipeline.FilterLive` | backend/rag_pipeline.py:76-79 | the survivors are exactly the results not flagged deleted, and there are no more of them than results |
| `Pipeline.FilterLiveDistributes` | backend/rag_pipeline.py:76-79 | filtering a concatenation concatenates the filtered parts, so search order is kept |
| `Pipeline.FilterLiveAllLive` | backend/rag_pipeline.py:76-79 | with no deleted result, the filter returns the results unchanged |
| `Pipeline.FilterLiveEmptyIff` | backend/rag_pipeline.py:76-86 | nothing survives exactly when every result is flagged deleted |
| `Pipeline.Preview` | backend/rag_pipeline.py:103 | the preview is the content when at most 200 characters, else its first 200 characters followed by `...`; never longer than 203 |
| `Pipeline.CitationsFollowSurvivors` | backend/rag_pipeline.py:93-104 | one citation per survivor, in order; each copies source, chunk id and score and previews the content; every cited result is live and came from the search |
| `Pipeline.CitationScoresAreScores` | backend/rag_pipeline.py:99-103 | citation i's confidence is survivor i's score, so the success confidence is the mean of the citations' confidences |
| `Pipeline.ContextBlockLayout` | backend/rag_pipeline.py:93-107 | the context block is two newlines and fifty `=` immediately followed by the entry labelled `[Source 1: ...]` |
| `Pipeline.SourceLabelsDistinct` | backend/rag_pipeline.py:95 | entries at different positions get different `Source i+1` labels |
| `Pipeline.OnlyLastFourMessagesCount` | backend/rag_pipeline.py:112-113 | messages older than the last four do not affect the history block |
| `Pipeline.ShortHistoryUsedWhole` | backend/rag_pipeline.py:111-122 | with one to four messages, every message contributes one line, oldest first, under the `Previous conversation:` heading |
| `Pipeline.MissingKeysDefault` | backend/rag_pipeline.py:116-119 | a message without role or content reads as `User: ` |
| `Pipeline.HistoryShownIffPresent` | backend/rag_pipeline.py:186-187 | the history block is non-blank, so it appears in the user prompt, exactly when some history was given |
| `Pipeline.UserPromptLayout` | backend/rag_pipeline.py:175-201 | `UserPrompt` (`_create_user_prompt`) is the opening line, then the history block only when non-blank, then the document context, then `Question: <question>`, then the closing instruction, each on a new line |
| `Pipeline.SystemPromptLayout` | backend/rag_pipeline.py:153-173 | `SystemPrompt` (`_create_system_prompt`) is one fixed text of fifteen lines: the role line, a blank line, `Your job is to:`, the six duties numbered 1 to 6 in order, a blank line, `Important rules:` and the four rules led by `- `; its first line is the role |
| `Pipeline.SumBounds` | backend/rag_pipeline.py:135 | scores all within `[lo, hi]` sum to between `lo * n` and `hi * n` |
| `Pipeline.MeanWithinBounds` | backend/rag_pipeline.py:135 | the confidence mean lies between the smallest and the largest surviving score |
| `Processor.ProcessDocument` | backend/document_processor.py:48-87 | it fails exactly for an extension with no reader, and then gives the lower-cased extension in the message, whatever `extract` and `split` do. Otherwise it returns one record per split piece, in order, with the content unchanged, `source` the file name, `chunk_id` i, `total_chunks` the piece count, and no `doc_id` or `deleted` flag |
| `Processor.SplitExtCharacterised` | backend/document_processor.py:60 | root plus extension rebuild the name; a non-empty extension starts at a dot followed by no dot or `/`, with a non-dot before it in the final component; an empty extension means no such dot exists |
| `Processor.ReaderChosenIgnoringCase` | backend/document_processor.py:60-70 | the PDF, Word and text readers are chosen exactly for `.pdf`, `.docx` and `.txt` in any mix of cases; every other extension has no reader |
| `Processor.DotFileIsRefused` | backend/document_processor.py:60-70 | a file named just `.pdf` has an empty extension and is refused |
| `Text.NatToString` | backend/rag_pipeline.py:95 | `str(n)` is a non-empty string of digits without a leading zero |
| `Text.ParseNatToString` | backend/rag_pipeline.py:95 | the rendered digits of `n` read back as `n` |
| `Text.NatToStringInjective` | backend/rag_pipeline.py:95 | distinct numbers render as distinct strings |
| `Text.TitleOfLowerWord` | backend/rag_pipeline.py:119 | `title()` of a lower-case word capitalises only its first letter |
| `Text.LowerEqualsIff` | backend/document_processor.py:60 | lower-casing yields a lower-case target exactly when the input spells it in some mix of cases |
| `EndToEnd.IngestStoresNumberedPieces` | backend/document_processor.py:76-87 | after processing and adding a file, the store is consistent and the id maps to the fresh run. Record i holds piece i with the file name, number i, the piece count and the document id |
| `EndToEnd.DeletedDocumentNeverCited` | backend/rag_pipeline.py:76-79 | after a document is deleted, a later search still returns each record at one of its positions (row j yields the record at row j's index), now flagged deleted; the pipeline's filter drops it, so no surviving result is such a record |
| `EndToEnd.AtMostFiveSources` | backend/rag_pipeline.py:64 | a query cites at most the five results it requests |
| `EndToEnd.PaddingRepeatsCitation` | backend/vector_store.py:118-126 | as written, a store with one live chunk searched with k = 5 yields five citations of that chunk: the first with the real score, the other four with the padding score; the mean confidence is `(score + 4 * pad) / 5` |
| `EndToEnd.IntendedSearchCitesOnce` | backend/vector_store.py:118-126 | with padding rows skipped, the same query cites the chunk once and its confidence is the real score |

## Left out

- Store.VectorStore.AddDocuments: encoder and index failures are not modelled, the empty batch among them. With no chunks, the model succeeds and maps the id to an empty run. In the source the embedding library and the index's `add` are outside this model and may raise on an empty batch before any field changes.
- Persistence: `save_to_disk` and `load_from_disk` (file I/O and pickle) are not modelled.
- Embedding model and index: vector math, float32 conversion and the index's ranking are not modelled. The encoder is the `embed` parameter; a search takes the index's rows as given.
- Query text: the search takes the index's rows directly instead of the query text.
- Dimension check: the source has none, so every vector is accepted.
- Readers and splitter: the PDF, Word and plain-text readers and the text splitter are function parameters.
- Extraction errors: a missing or unreadable file raises in the source; the model does not include that.
- Generation: `_call_openai` is not modelled, nor how it rewrites rate-limit and authentication errors into messages. Neither is the `OPENAI_API_KEY` check in the pipeline's constructor. A failed call is `Failed(message)`, and `message` stands for `str(e)`.
- `async`, console logging, and the `deleted_count` counter (it only feeds a log line) are left out. The model treats every operation as sequential, so the locking and atomicity concerns of concurrent requests are out of scope.
- Aliasing: the source writes `doc_id` into the caller's own chunk dictionaries, and its records are shared mutable dictionaries. The model's records are values. It does not capture a later change made through another reference, or the same dictionary appended twice.
- Metadata keys: a record always has `source`, `chunk_id` and `total_chunks`. The `KeyError` a record without `source` or `chunk_id` would raise in `query` is not modelled.
- Characters: `str.lower` and `str.title` are modelled on ASCII letters only. Extension dispatch is unaffected, because no non-ASCII character lowers to a letter of `pdf`, `docx` or `txt`. The error message can differ for non-ASCII extensions.
- Paths: `os.path.splitext` is modelled in its POSIX form, with `/` as the only separator.
- Scores and means are exact reals, not IEEE doubles.
- `backend/main.py` and `streamlit_rag_app.py` are not part of this model. They are HTTP and UI plumbing: upload handling, temporary files and id generation.

## Findings

| source | as written | input that shows it | evidently intended | confidence | as-written member | corrected member |
|---|---|---|---|---|---|---|
| backend/vector_store.py:118-126 | The guard `idx < len(self.documents)` lets through the `-1` the index uses to pad rows when `k` exceeds the number of stored vectors. `self.documents[-1]` then returns the last record. | A store holding one chunk, queried with `k = 5`: the index returns ids `[0, -1, -1, -1, -1]`. The query then cites the same chunk five times, four times with the padding score, and that score enters the mean confidence. | Skip rows whose index is negative, as `0 <= idx < len(self.documents)` does. | high that the guard admits `-1` (it follows from the code); not executed | `EndToEnd.PaddingRepeatsCitation` | `EndToEnd.IntendedSearchCitesOnce` |
