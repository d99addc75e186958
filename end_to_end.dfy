/** Properties that span the three components: ingestion (processor, then
    store), soft deletion seen through a later query, and the effect of the
    index's padding rows on what a query cites. */
module EndToEnd {
  import opened Records
  import opened Store
  import opened Pipeline
  import opened Processor

  /** Ingesting a processed file stores its pieces in order, each tagged
      with the document id, its own number, the piece count and the file
      name, after every record already stored. */
  lemma IngestStoresNumberedPieces(
    s: StoreState, filePath: string, filename: string,
    extract: (Format, string) -> string, split: string -> seq<string>,
    docId: string, embed: string -> Vector)
    requires Consistent(s)
    requires ProcessDocument(filePath, filename, extract, split).Success?
    ensures var chunks := ProcessDocument(filePath, filename, extract, split).value;
      var t := AddSpec(s, chunks, docId, embed);
      && Consistent(t)
      && t.docToChunks[docId] == Positions(|s.documents|, |chunks|)
      && forall i :: 0 <= i < |chunks| ==>
           var m := t.documents[|s.documents| + i].metadata;
           && t.documents[|s.documents| + i].content == chunks[i].content
           && m == Metadata(filename, i, |chunks|, Some(docId), false)
  {
    var chunks := ProcessDocument(filePath, filename, extract, split).value;
    AddPreservesConsistency(s, chunks, docId, embed);
    AddIsAppendOnly(s, chunks, docId, embed);
  }

  /** After a document is deleted, the store still returns the records at
      that document's positions (row j yields the record at its Python
      index), each now flagged deleted, and the pipeline's filter drops them,
      so no later query cites any of them. */
  lemma DeletedDocumentNeverCited(s: StoreState, docId: string, scores: seq<real>, ids: seq<int>)
    requires Consistent(s) && docId in s.docToChunks
    requires s.documents != []
    requires |scores| == |ids|
    requires forall j :: 0 <= j < |ids| ==> -1 <= ids[j] < |s.documents|
    ensures var t := DeleteSpec(s, docId);
      var results := SearchResults(t.documents, scores, ids);
      forall j :: 0 <= j < |ids| && PyIndex(|s.documents|, ids[j]) in s.docToChunks[docId] ==>
        && j < |results|
        && results[j] == ScoredChunk(t.documents[PyIndex(|s.documents|, ids[j])], scores[j])
        && !IsLive(results[j])
    ensures var t := DeleteSpec(s, docId);
      var live := FilterLive(SearchResults(t.documents, scores, ids));
      forall x, p :: x in live && p in s.docToChunks[docId] ==> x.chunk != t.documents[p]
  {
    DeleteMarksExactlyItsRecords(s, docId);
    var t := DeleteSpec(s, docId);
    SearchInRankOrder(t.documents, scores, ids);
  }

  /** A query never cites more than the five results it asks the store for. */
  lemma AtMostFiveSources(docs: seq<Chunk>, scores: seq<real>, ids: seq<int>)
    requires |scores| == |ids| == SearchK
    requires forall j :: 0 <= j < |ids| ==> -|docs| <= ids[j]
    ensures |Citations(FilterLive(SearchResults(docs, scores, ids)))| <= SearchK
  {
    SearchAtMostK(docs, scores, ids);
  }

  /** As written: a store holding one live chunk answers k = 5 with one
      real row and four `-1` padding rows. The query cites that chunk five
      times, four of them with the padding score, and the padding score
      enters the mean confidence four times over. */
  lemma PaddingRepeatsCitation(c: Chunk, score: real, pad: real)
    requires !c.metadata.deleted
    ensures var results := SearchResults([c], [score, pad, pad, pad, pad], [0, -1, -1, -1, -1]);
      var live := FilterLive(results);
      var sources := Citations(live);
      && |sources| == 5
      && sources[0] == Cite(ScoredChunk(c, score))
      && (forall i :: 1 <= i < 5 ==> sources[i] == Cite(ScoredChunk(c, pad)))
      && Mean(Scores(live)) == (score + 4.0 * pad) / 5.0
  {
    var hit := ScoredChunk(c, score);
    var padded := ScoredChunk(c, pad);
    SearchOneThenFourPads(c, score, pad);
    AllLiveOneThenFour(hit, padded);
    assert Scores([hit, padded, padded, padded, padded]) == [score, pad, pad, pad, pad];
    MeanOneThenFour(score, pad);
  }

  /** Five live results pass the filter unchanged. */
  lemma AllLiveOneThenFour(x: ScoredChunk, y: ScoredChunk)
    requires IsLive(x) && IsLive(y)
    ensures FilterLive([x, y, y, y, y]) == [x, y, y, y, y]
  {
    FilterLiveAllLive([x, y, y, y, y]);
  }

  /** The as-written search over one record, with one real row and four
      padding rows: the record comes back five times. */
  lemma SearchOneThenFourPads(c: Chunk, score: real, pad: real)
    ensures SearchResults([c], [score, pad, pad, pad, pad], [0, -1, -1, -1, -1])
         == [ScoredChunk(c, score), ScoredChunk(c, pad), ScoredChunk(c, pad), ScoredChunk(c, pad), ScoredChunk(c, pad)]
  {
    var results := SearchResults([c], [score, pad, pad, pad, pad], [0, -1, -1, -1, -1]);
    SearchInRankOrder([c], [score, pad, pad, pad, pad], [0, -1, -1, -1, -1]);
    assert |results| == 5;
  }

  /** The mean of one real score and four padding scores. */
  lemma MeanOneThenFour(a: real, b: real)
    ensures Mean([a, b, b, b, b]) == (a + 4.0 * b) / 5.0
  {
    SumOneThenFour(a, b);
  }

  /** The score sum of one real row followed by four padding rows. */
  lemma SumOneThenFour(a: real, b: real)
    ensures Sum([a, b, b, b, b]) == a + 4.0 * b
  {
    assert [a, b, b, b, b][1..] == [b, b, b, b];
    assert [b, b, b, b][1..] == [b, b, b];
    assert [b, b, b][1..] == [b, b];
    assert [b, b][1..] == [b];
    assert [b][1..] == [];
    assert Sum([b]) == b;
    assert Sum([b, b]) == 2.0 * b;
    assert Sum([b, b, b]) == 3.0 * b;
  }

  /** Corrected: with padding rows skipped the same store is cited once,
      with the real score, and the confidence is that score. */
  lemma IntendedSearchCitesOnce(c: Chunk, score: real, pad: real)
    requires !c.metadata.deleted
    ensures var results := IntendedSearchResults([c], [score, pad, pad, pad, pad], [0, -1, -1, -1, -1]);
      var live := FilterLive(results);
      && Citations(live) == [Cite(ScoredChunk(c, score))]
      && Mean(Scores(live)) == score
  {
    var scores := [score, pad, pad, pad, pad];
    var ids := [0, -1, -1, -1, -1];
    TrailingPaddingIgnored([c], scores, ids, 1);
    assert scores[..1] == [score] && ids[..1] == [0];
    assert IntendedSearchResults([c], [score], [0]) == [ScoredChunk(c, score)];
    var live := FilterLive([ScoredChunk(c, score)]);
    assert live == [ScoredChunk(c, score)];
    assert Scores(live) == [score];
    assert [score][1..] == [];
    assert Sum([score]) == score;
  }
}
