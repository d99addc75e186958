/** The chunk bookkeeping of `VectorStore`: an append-only list of chunk
    records, a similarity index that grows in step with it, and a map from
    document id to the positions of that document's chunks. The embedding
    model and the index search are inputs: `embed` turns a chunk's text into
    a vector, and a search hands in the `(scores, indices)` rows the index
    returned. */
module Store {
  import opened Records

  /** An embedding as the index stores it. */
  type Vector = seq<real>

  /** The three fields the store updates: `documents`, the index (one vector
      per stored record, so `|index|` is the index's `ntotal`) and
      `doc_to_chunks`. */
  datatype StoreState = StoreState(
    documents: seq<Chunk>,
    index: seq<Vector>,
    docToChunks: map<string, seq<nat>>)

  /** The positions form one consecutive run `p, p+1, ...`. */
  predicate IsRun(ps: seq<nat>)
  {
    forall i :: 0 <= i < |ps| ==> ps[i] == ps[0] + i
  }

  /** What every reachable store satisfies: one vector per record, and each
      registered document owns a run of existing positions whose records
      carry that document's id. */
  ghost predicate Consistent(s: StoreState)
  {
    && |s.documents| == |s.index|
    && (forall d :: d in s.docToChunks ==> IsRun(s.docToChunks[d]))
    && (forall d :: d in s.docToChunks ==> Owns(s, d, s.docToChunks[d]))
  }

  /** Every position in `ps` names a stored record tagged with document `d`. */
  ghost predicate Owns(s: StoreState, d: string, ps: seq<nat>)
  {
    forall p :: p in ps ==> p < |s.documents| && s.documents[p].metadata.docId == Some(d)
  }

  // ----- add_documents -----

  /** `chunk["metadata"]["doc_id"] = doc_id`. */
  function Tag(c: Chunk, docId: string): Chunk
  {
    c.(metadata := c.metadata.(docId := Some(docId)))
  }

  function Tagged(chunks: seq<Chunk>, docId: string): seq<Chunk>
  {
    seq(|chunks|, i requires 0 <= i < |chunks| => Tag(chunks[i], docId))
  }

  /** The vectors the encoder produces for the chunks' texts, in order. */
  function Embeddings(chunks: seq<Chunk>, embed: string -> Vector): seq<Vector>
  {
    seq(|chunks|, i requires 0 <= i < |chunks| => embed(chunks[i].content))
  }

  /** `[start, start + 1, ..., start + n - 1]`. */
  function Positions(start: nat, n: nat): seq<nat>
  {
    seq(n, i requires 0 <= i < n => start + i)
  }

  /** The state after `add_documents(chunks, doc_id)`. */
  function AddSpec(s: StoreState, chunks: seq<Chunk>, docId: string, embed: string -> Vector): StoreState
  {
    StoreState(
      s.documents + Tagged(chunks, docId),
      s.index + Embeddings(chunks, embed),
      s.docToChunks[docId := Positions(|s.documents|, |chunks|)])
  }

  /** Adding appends exactly one record and one vector per chunk; the new
      records keep their content and metadata apart from the document id,
      and nothing stored before changes. */
  lemma AddIsAppendOnly(s: StoreState, chunks: seq<Chunk>, docId: string, embed: string -> Vector)
    ensures var t := AddSpec(s, chunks, docId, embed);
      && |t.documents| == |s.documents| + |chunks|
      && |t.index| == |s.index| + |chunks|
      && t.documents[..|s.documents|] == s.documents
      && t.index[..|s.index|] == s.index
      && forall i :: 0 <= i < |chunks| ==>
           && t.documents[|s.documents| + i].content == chunks[i].content
           && t.documents[|s.documents| + i].metadata == chunks[i].metadata.(docId := Some(docId))
  {
  }

  /** The document is registered under exactly the run of fresh positions
      `[old length, old length + n)`, and every other registered position
      lies below the old length, so the runs cannot overlap. */
  lemma AddRegistersFreshRun(s: StoreState, chunks: seq<Chunk>, docId: string, embed: string -> Vector)
    requires Consistent(s)
    ensures var t := AddSpec(s, chunks, docId, embed);
      && docId in t.docToChunks
      && |t.docToChunks[docId]| == |chunks|
      && (forall i :: 0 <= i < |chunks| ==> t.docToChunks[docId][i] == |s.documents| + i)
      && (forall d, p :: d in t.docToChunks && d != docId && p in t.docToChunks[d] ==>
            p < |s.documents|)
  {
    var t := AddSpec(s, chunks, docId, embed);
    forall d, p | d in t.docToChunks && d != docId && p in t.docToChunks[d]
      ensures p < |s.documents|
    {
      assert d in s.docToChunks && t.docToChunks[d] == s.docToChunks[d];
    }
  }

  lemma AddPreservesConsistency(s: StoreState, chunks: seq<Chunk>, docId: string, embed: string -> Vector)
    requires Consistent(s)
    ensures Consistent(AddSpec(s, chunks, docId, embed))
  {
    var t := AddSpec(s, chunks, docId, embed);
    var n := |s.documents|;
    forall d, p | d in t.docToChunks && p in t.docToChunks[d]
      ensures p < |t.documents| && t.documents[p].metadata.docId == Some(d)
    {
      if d == docId {
        var i :| 0 <= i < |chunks| && t.docToChunks[d][i] == p;
        assert t.documents[p] == Tag(chunks[i], docId);
      } else {
        assert p in s.docToChunks[d];
        assert t.documents[p] == s.documents[p];
      }
    }
  }

  // ----- delete_document -----

  /** `metadata["deleted"] = True`. */
  function MarkDeleted(c: Chunk): Chunk
  {
    c.(metadata := c.metadata.(deleted := true))
  }

  /** The records with every position in `positions` marked deleted. */
  function MarkAt(docs: seq<Chunk>, positions: seq<nat>): seq<Chunk>
  {
    seq(|docs|, i requires 0 <= i < |docs| =>
      if i in positions then MarkDeleted(docs[i]) else docs[i])
  }

  /** The state after `delete_document(doc_id)`. */
  function DeleteSpec(s: StoreState, docId: string): StoreState
  {
    if docId !in s.docToChunks then s
    else StoreState(MarkAt(s.documents, s.docToChunks[docId]), s.index, s.docToChunks - {docId})
  }

  /** Deleting a registered document flags exactly the records at its
      positions (and sets nothing else), drops its entry, and keeps the list
      length, the index, every record's content and every other entry. */
  lemma DeleteMarksExactlyItsRecords(s: StoreState, docId: string)
    requires Consistent(s)
    requires docId in s.docToChunks
    ensures var t := DeleteSpec(s, docId);
      && |t.documents| == |s.documents|
      && t.index == s.index
      && t.docToChunks.Keys == s.docToChunks.Keys - {docId}
      && (forall d :: d in t.docToChunks ==> t.docToChunks[d] == s.docToChunks[d])
      && (forall p :: p in s.docToChunks[docId] ==>
            t.documents[p].metadata.deleted && t.documents[p].metadata.docId == Some(docId))
      && (forall i :: 0 <= i < |s.documents| ==>
            && t.documents[i].content == s.documents[i].content
            && t.documents[i].metadata.(deleted := false) == s.documents[i].metadata.(deleted := false)
            && (t.documents[i].metadata.deleted <==>
                  s.documents[i].metadata.deleted || i in s.docToChunks[docId]))
  {
    var t := DeleteSpec(s, docId);
    forall p | p in s.docToChunks[docId]
      ensures t.documents[p].metadata.deleted && t.documents[p].metadata.docId == Some(docId)
    {
      assert t.documents[p] == MarkDeleted(s.documents[p]);
    }
  }

  /** An unknown id leaves the whole state as it was. */
  lemma DeleteUnknownIsNoOp(s: StoreState, docId: string)
    requires docId !in s.docToChunks
    ensures DeleteSpec(s, docId) == s
  {
  }

  /** A second delete of the same id takes the unknown-id path. */
  lemma DeleteIsIdempotent(s: StoreState, docId: string)
    ensures docId !in DeleteSpec(s, docId).docToChunks
    ensures DeleteSpec(DeleteSpec(s, docId), docId) == DeleteSpec(s, docId)
  {
  }

  lemma DeletePreservesConsistency(s: StoreState, docId: string)
    requires Consistent(s)
    ensures Consistent(DeleteSpec(s, docId))
  {
    if docId in s.docToChunks {
      var t := DeleteSpec(s, docId);
      forall d, p | d in t.docToChunks && p in t.docToChunks[d]
        ensures p < |t.documents| && t.documents[p].metadata.docId == Some(d)
      {
        assert p in s.docToChunks[d];
      }
    }
  }

  /** Two different registered documents never share a position. */
  lemma RegisteredRunsDisjoint(s: StoreState, d1: string, d2: string, p: nat)
    requires Consistent(s)
    requires d1 in s.docToChunks && d2 in s.docToChunks && d1 != d2
    requires p in s.docToChunks[d1]
    ensures p !in s.docToChunks[d2]
  {
  }

  // ----- similarity_search -----

  /** Python list indexing `documents[i]`: a negative `i` counts from the end. */
  function PyIndex(n: nat, i: int): (p: nat)
    requires -(n as int) <= i < n
    ensures p < n
    ensures i >= 0 ==> p == i
  {
    if i < 0 then n + i else i
  }

  /** The results of `similarity_search` as written: walk the index's
      `(score, idx)` rows in rank order and keep each row whose `idx` passes
      the guard `idx < len(documents)`. */
  function SearchResults(docs: seq<Chunk>, scores: seq<real>, ids: seq<int>): seq<ScoredChunk>
    requires |scores| == |ids|
    requires forall j :: 0 <= j < |ids| ==> -|docs| <= ids[j]
  {
    if ids == [] then []
    else
      var n := |ids| - 1;
      SearchResults(docs, scores[..n], ids[..n])
      + if ids[n] < |docs| then [ScoredChunk(docs[PyIndex(|docs|, ids[n])], scores[n])] else []
  }

  /** A search never returns more pairs than the index returned rows. */
  lemma {:induction false} SearchAtMostK(docs: seq<Chunk>, scores: seq<real>, ids: seq<int>)
    requires |scores| == |ids|
    requires forall j :: 0 <= j < |ids| ==> -|docs| <= ids[j]
    ensures |SearchResults(docs, scores, ids)| <= |ids|
  {
    if ids != [] {
      SearchAtMostK(docs, scores[..|ids| - 1], ids[..|ids| - 1]);
    }
  }

  /** When every index row is a valid Python index into `documents` (as the
      index guarantees on a consistent store), no row is skipped: the j-th
      pair is the record at row j's index with row j's score. */
  lemma {:induction false} SearchInRankOrder(docs: seq<Chunk>, scores: seq<real>, ids: seq<int>)
    requires |scores| == |ids|
    requires forall j :: 0 <= j < |ids| ==> -|docs| <= ids[j] < |docs|
    ensures var r := SearchResults(docs, scores, ids);
      && |r| == |ids|
      && forall j :: 0 <= j < |ids| ==> r[j] == ScoredChunk(docs[PyIndex(|docs|, ids[j])], scores[j])
  {
    if ids != [] {
      SearchInRankOrder(docs, scores[..|ids| - 1], ids[..|ids| - 1]);
    }
  }

  /** The index pads missing rows with `-1`; that row passes the guard and
      Python indexing turns it into the LAST stored record. */
  lemma PaddedRowYieldsLastRecord(docs: seq<Chunk>, scores: seq<real>, ids: seq<int>, j: nat)
    requires docs != [] && |scores| == |ids|
    requires forall i :: 0 <= i < |ids| ==> -1 <= ids[i] < |docs|
    requires j < |ids| && ids[j] == -1
    ensures j < |SearchResults(docs, scores, ids)|
    ensures SearchResults(docs, scores, ids)[j] == ScoredChunk(docs[|docs| - 1], scores[j])
  {
    SearchInRankOrder(docs, scores, ids);
  }

  /** A store of two records searched with k = 3: the index can fill only two
      rows and pads the third with -1, and the last record is returned twice. */
  lemma PaddingDuplicatesLastRecord(a: Chunk, b: Chunk, s0: real, s1: real, pad: real)
    ensures var r := SearchResults([a, b], [s0, s1, pad], [1, 0, -1]);
      |r| == 3 && r[0].chunk == b && r[2] == ScoredChunk(b, pad)
  {
    SearchInRankOrder([a, b], [s0, s1, pad], [1, 0, -1]);
  }

  /** The evidently intended search: a row counts only when `0 <= idx <
      len(documents)`, so padding rows are dropped. */
  function IntendedSearchResults(docs: seq<Chunk>, scores: seq<real>, ids: seq<int>): seq<ScoredChunk>
    requires |scores| == |ids|
  {
    if ids == [] then []
    else
      var n := |ids| - 1;
      IntendedSearchResults(docs, scores[..n], ids[..n])
      + if 0 <= ids[n] < |docs| then [ScoredChunk(docs[ids[n]], scores[n])] else []
  }

  /** A padding row appended to the index's answer adds no pair. */
  lemma PaddingRowAddsNothing(docs: seq<Chunk>, scores: seq<real>, ids: seq<int>, pad: real)
    requires |scores| == |ids|
    ensures IntendedSearchResults(docs, scores + [pad], ids + [-1]) == IntendedSearchResults(docs, scores, ids)
  {
    assert (scores + [pad])[..|scores|] == scores;
    assert (ids + [-1])[..|ids|] == ids;
  }

  /** Padding rows at the tail of the index's answer add nothing: only the
      first `m` rows matter when every later row is negative. */
  lemma {:induction false} TrailingPaddingIgnored(docs: seq<Chunk>, scores: seq<real>, ids: seq<int>, m: nat)
    requires |scores| == |ids| && m <= |ids|
    requires forall j :: m <= j < |ids| ==> ids[j] < 0
    ensures IntendedSearchResults(docs, scores, ids) == IntendedSearchResults(docs, scores[..m], ids[..m])
  {
    if |ids| > m {
      var n := |ids| - 1;
      TrailingPaddingIgnored(docs, scores[..n], ids[..n], m);
      assert scores[..n][..m] == scores[..m];
      assert ids[..n][..m] == ids[..m];
    } else {
      assert scores[..m] == scores && ids[..m] == ids;
    }
  }

  /** Number of rows that name a stored record. */
  function RealHits(ids: seq<int>, n: nat): nat
  {
    if ids == [] then 0
    else RealHits(ids[..|ids| - 1], n) + if 0 <= ids[|ids| - 1] < n then 1 else 0
  }

  /** The intended search returns one pair per real hit (padding rows add
      nothing) and agrees with the code as written when there is no padding. */
  lemma {:induction false} IntendedSearchSkipsPadding(docs: seq<Chunk>, scores: seq<real>, ids: seq<int>)
    requires |scores| == |ids|
    requires forall j :: 0 <= j < |ids| ==> -1 <= ids[j] < |docs|
    ensures |IntendedSearchResults(docs, scores, ids)| == RealHits(ids, |docs|)
    ensures (forall j :: 0 <= j < |ids| ==> ids[j] >= 0) ==>
              IntendedSearchResults(docs, scores, ids) == SearchResults(docs, scores, ids)
  {
    if ids != [] {
      IntendedSearchSkipsPadding(docs, scores[..|ids| - 1], ids[..|ids| - 1]);
    }
  }

  // ----- the store object -----

  class VectorStore {
    var documents: seq<Chunk>
    var index: seq<Vector>
    var docToChunks: map<string, seq<nat>>

    function State(): StoreState
      reads this
    {
      StoreState(documents, index, docToChunks)
    }

    ghost predicate Valid()
      reads this
    {
      Consistent(State())
    }

    constructor ()
      ensures Valid()
      ensures documents == [] && index == [] && docToChunks == map[]
    {
      documents := [];
      index := [];
      docToChunks := map[];
    }

    /** `is_initialized`: the index holds at least one vector, which on a
        consistent store means at least one record (deleted ones included). */
    function IsInitialized(): (r: bool)
      reads this
      requires Valid()
      ensures r <==> documents != []
    {
      |index| > 0
    }

    /** `add_documents(chunks, doc_id)`: encode and add the vectors, then tag
        and append each chunk, then register the positions. */
    method AddDocuments(chunks: seq<Chunk>, docId: string, embed: string -> Vector)
      requires Valid()
      modifies this
      ensures Valid()
      ensures State() == AddSpec(old(State()), chunks, docId, embed)
    {
      var startIdx := |documents|;
      index := index + Embeddings(chunks, embed);
      var chunkIndices: seq<nat> := [];
      var i := 0;
      while i < |chunks|
        invariant 0 <= i <= |chunks|
        invariant chunkIndices == Positions(startIdx, i)
        invariant |documents| == startIdx + i
        invariant documents[..startIdx] == old(documents)
        invariant forall j :: 0 <= j < i ==> documents[startIdx + j] == Tag(chunks[j], docId)
        invariant index == old(index) + Embeddings(chunks, embed)
        invariant docToChunks == old(docToChunks)
      {
        chunkIndices := chunkIndices + [startIdx + i];
        documents := documents + [Tag(chunks[i], docId)];
        i := i + 1;
      }
      assert documents == old(documents) + Tagged(chunks, docId);
      docToChunks := docToChunks[docId := chunkIndices];
      AddPreservesConsistency(old(State()), chunks, docId, embed);
    }

    /** `similarity_search`, given the rows the index returned for the
        encoded query: on an empty store the index is not consulted. */
    method SimilaritySearch(k: nat, scores: seq<real>, ids: seq<int>) returns (results: seq<ScoredChunk>)
      requires Valid()
      requires |scores| == k && |ids| == k
      requires forall j :: 0 <= j < k ==> -1 <= ids[j] < |index|
      ensures documents == [] ==> results == []
      ensures documents != [] ==> results == SearchResults(documents, scores, ids)
      ensures |results| <= k
    {
      if !IsInitialized() {
        return [];
      }
      results := [];
      var i := 0;
      while i < k
        invariant 0 <= i <= k
        invariant results == SearchResults(documents, scores[..i], ids[..i])
      {
        var idx := ids[i];
        if idx < |documents| {
          results := results + [ScoredChunk(documents[PyIndex(|documents|, idx)], scores[i])];
        }
        assert scores[..i + 1][..i] == scores[..i] && ids[..i + 1][..i] == ids[..i];
        i := i + 1;
      }
      assert scores[..k] == scores && ids[..k] == ids;
      SearchAtMostK(documents, scores, ids);
    }

    /** `delete_document(doc_id)`: a soft delete of the registered positions. */
    method DeleteDocument(docId: string)
      requires Valid()
      modifies this
      ensures Valid()
      ensures State() == DeleteSpec(old(State()), docId)
      ensures docId !in old(docToChunks) ==> State() == old(State())
    {
      if docId !in docToChunks {
        return;
      }
      var chunkIndices := docToChunks[docId];
      var k := 0;
      while k < |chunkIndices|
        invariant 0 <= k <= |chunkIndices|
        invariant documents == MarkAt(old(documents), chunkIndices[..k])
        invariant index == old(index) && docToChunks == old(docToChunks)
      {
        var idx := chunkIndices[k];
        if idx < |documents| {
          documents := documents[idx := MarkDeleted(documents[idx])];
        }
        assert chunkIndices[..k + 1] == chunkIndices[..k] + [idx];
        k := k + 1;
      }
      assert chunkIndices[..k] == chunkIndices;
      docToChunks := docToChunks - {docId};
      DeletePreservesConsistency(old(State()), docId);
    }
  }
}
