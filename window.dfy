/** Window expansion (the loop over doc_map in retrieve): the neighbour ids
    asked for around every chunk that meets the threshold, the batched fetch,
    and the merge that appends only chunks whose id is not yet present. */
module Window {

  import opened RetrieverTypes
  import opened Scores

  /** [i for i in range(lo, hi) if i != v] */
  function RangeWithout(lo: int, hi: int, v: int): (r: seq<int>)
    decreases hi - lo
    ensures forall x :: x in r <==> lo <= x < hi && x != v
    ensures forall i, j :: 0 <= i < j < |r| ==> r[i] < r[j]
    ensures |r| == if lo >= hi then 0 else if lo <= v < hi then hi - lo - 1 else hi - lo
  {
    if lo >= hi then []
    else
      var rest := RangeWithout(lo + 1, hi, v);
      assert forall j :: 0 <= j < |rest| ==> lo < rest[j] by {
        forall j | 0 <= j < |rest| ensures lo < rest[j] {
          assert rest[j] in rest;
        }
      }
      (if lo == v then [] else [lo]) + rest
  }

  /** generate_window_list(value, window): the ids around value, value itself excluded. */
  function WindowList(value: int, window: int): (r: seq<int>)
    ensures forall x :: x in r <==> x != value && value - window <= x <= value + window
    ensures forall i, j :: 0 <= i < j < |r| ==> r[i] < r[j]
    ensures |r| == if window >= 0 then 2 * window else 0
  {
    RangeWithout(value - window, value + window + 1, value)
  }

  /** The test `window_threshold <= normalize_value(score, max, min)`. */
  predicate AboveThreshold(c: Chunk, threshold: real, maxScore: real, minScore: real)
    requires maxScore != minScore
  {
    threshold <= Normalize(c.score, maxScore, minScore)
  }

  /** additional_chunk_ids after the loop over a document's chunks. */
  function AdditionalIds(chunks: seq<Chunk>, window: int, threshold: real, maxScore: real, minScore: real): seq<int>
    requires maxScore != minScore
  {
    if chunks == [] then []
    else
      var c := chunks[|chunks| - 1];
      AdditionalIds(chunks[..|chunks| - 1], window, threshold, maxScore, minScore)
      + (if AboveThreshold(c, threshold, maxScore, minScore) then WindowList(c.chunkId, window) else [])
  }

  /** unique_chunk_ids = set(additional_chunk_ids) */
  function RequestedIds(chunks: seq<Chunk>, window: int, threshold: real, maxScore: real, minScore: real): set<int>
    requires maxScore != minScore
  {
    set x | x in AdditionalIds(chunks, window, threshold, maxScore, minScore)
  }

  /** x is one of the window ids of chunk c, which meets the threshold. */
  predicate InWindowOf(x: int, c: Chunk, window: int, threshold: real, maxScore: real, minScore: real)
    requires maxScore != minScore
  {
    AboveThreshold(c, threshold, maxScore, minScore) && x != c.chunkId && c.chunkId - window <= x <= c.chunkId + window
  }

  /** One step of the fold: the ids of all chunks are those of all but the
      last, and the window ids of the last. */
  lemma AdditionalIdsStep(chunks: seq<Chunk>, window: int, threshold: real, maxScore: real, minScore: real, x: int)
    requires maxScore != minScore
    requires chunks != []
    ensures x in AdditionalIds(chunks, window, threshold, maxScore, minScore) <==>
      x in AdditionalIds(chunks[..|chunks| - 1], window, threshold, maxScore, minScore)
      || InWindowOf(x, chunks[|chunks| - 1], window, threshold, maxScore, minScore)
  {
  }

  /** Every requested id comes from a chunk that meets the threshold: the
      lemma returns that chunk's position. */
  lemma {:induction false} AdditionalIdsSource(chunks: seq<Chunk>, window: int, threshold: real, maxScore: real, minScore: real, x: int)
    returns (j: int)
    requires maxScore != minScore
    requires x in AdditionalIds(chunks, window, threshold, maxScore, minScore)
    ensures 0 <= j < |chunks| && InWindowOf(x, chunks[j], window, threshold, maxScore, minScore)
  {
    var n := |chunks| - 1;
    var front := chunks[..n];
    AdditionalIdsStep(chunks, window, threshold, maxScore, minScore, x);
    if x in AdditionalIds(front, window, threshold, maxScore, minScore) {
      j := AdditionalIdsSource(front, window, threshold, maxScore, minScore, x);
      assert front[j] == chunks[j];
    } else {
      j := n;
    }
  }

  /** Every window id of a chunk that meets the threshold is requested. */
  lemma {:induction false} AdditionalIdsCover(chunks: seq<Chunk>, window: int, threshold: real, maxScore: real, minScore: real, x: int, j: int)
    requires maxScore != minScore
    requires 0 <= j < |chunks| && InWindowOf(x, chunks[j], window, threshold, maxScore, minScore)
    ensures x in AdditionalIds(chunks, window, threshold, maxScore, minScore)
  {
    var n := |chunks| - 1;
    var front := chunks[..n];
    AdditionalIdsStep(chunks, window, threshold, maxScore, minScore, x);
    if j < n {
      assert front[j] == chunks[j];
      AdditionalIdsCover(front, window, threshold, maxScore, minScore, x, j);
    }
  }

  /** An id is requested exactly when it lies within the window of some chunk
      that meets the threshold, and is not that chunk's own id. */
  lemma AdditionalIdsMembers(chunks: seq<Chunk>, window: int, threshold: real, maxScore: real, minScore: real, x: int)
    requires maxScore != minScore
    ensures x in AdditionalIds(chunks, window, threshold, maxScore, minScore) <==>
      exists j :: 0 <= j < |chunks| && InWindowOf(x, chunks[j], window, threshold, maxScore, minScore)
  {
    if x in AdditionalIds(chunks, window, threshold, maxScore, minScore) {
      var j := AdditionalIdsSource(chunks, window, threshold, maxScore, minScore, x);
    }
    if exists j :: 0 <= j < |chunks| && InWindowOf(x, chunks[j], window, threshold, maxScore, minScore) {
      var j :| 0 <= j < |chunks| && InWindowOf(x, chunks[j], window, threshold, maxScore, minScore);
      AdditionalIdsCover(chunks, window, threshold, maxScore, minScore, x, j);
    }
  }

  /** Nothing is requested when the window is 0 or no chunk meets the threshold. */
  lemma NothingRequested(chunks: seq<Chunk>, window: int, threshold: real, maxScore: real, minScore: real)
    requires maxScore != minScore
    requires window == 0 || forall j :: 0 <= j < |chunks| ==> !AboveThreshold(chunks[j], threshold, maxScore, minScore)
    ensures RequestedIds(chunks, window, threshold, maxScore, minScore) == {}
  {
    forall x ensures x !in AdditionalIds(chunks, window, threshold, maxScore, minScore) {
      AdditionalIdsMembers(chunks, window, threshold, maxScore, minScore, x);
    }
  }

  /** The loop of lines 119-127: collect the window ids of every chunk that meets the threshold. */
  method CollectWindowIds(chunks: seq<Chunk>, window: int, threshold: real, maxScore: real, minScore: real)
    returns (ids: seq<int>)
    requires maxScore != minScore
    ensures ids == AdditionalIds(chunks, window, threshold, maxScore, minScore)
    ensures forall x :: x in ids <==>
      exists j :: 0 <= j < |chunks| && InWindowOf(x, chunks[j], window, threshold, maxScore, minScore)
  {
    ids := [];
    var i := 0;
    while i < |chunks|
      invariant 0 <= i <= |chunks|
      invariant ids == AdditionalIds(chunks[..i], window, threshold, maxScore, minScore)
    {
      var normalized := Normalize(chunks[i].score, maxScore, minScore);
      if threshold <= normalized {
        ids := ids + WindowList(chunks[i].chunkId, window);
      }
      assert chunks[..i + 1][..i] == chunks[..i];
      i := i + 1;
    }
    assert chunks[..i] == chunks;
    forall x ensures x in ids <==>
      exists j :: 0 <= j < |chunks| && InWindowOf(x, chunks[j], window, threshold, maxScore, minScore)
    {
      AdditionalIdsMembers(chunks, window, threshold, maxScore, minScore, x);
    }
  }

  /** A fetched neighbour as it is appended: context only, score 0. */
  function ContextChunk(f: StoredChunk): Chunk {
    Chunk(f.uuid, 0.0, f.chunkId, f.content)
  }

  /** The chunk list after the loop of lines 137-147 over the fetched chunks. */
  function Merge(chunks: seq<Chunk>, fetched: seq<StoredChunk>): seq<Chunk> {
    if fetched == [] then chunks
    else
      var m := Merge(chunks, fetched[..|fetched| - 1]);
      var f := fetched[|fetched| - 1];
      if f.chunkId in Ids(m) then m else m + [ContextChunk(f)]
  }

  lemma IdsAppend(cs: seq<Chunk>, c: Chunk)
    ensures Ids(cs + [c]) == Ids(cs) + {c.chunkId}
  {
    assert forall d :: d in cs + [c] <==> d in cs || d == c;
  }

  /** The merge appends: the present chunks stay in place. */
  lemma {:induction false} MergePrefix(chunks: seq<Chunk>, fetched: seq<StoredChunk>)
    ensures |chunks| <= |Merge(chunks, fetched)|
    ensures Merge(chunks, fetched)[..|chunks|] == chunks
  {
    if fetched != [] {
      var n := |fetched| - 1;
      var m := Merge(chunks, fetched[..n]);
      MergePrefix(chunks, fetched[..n]);
      if fetched[n].chunkId !in Ids(m) {
        assert (m + [ContextChunk(fetched[n])])[..|chunks|] == m[..|chunks|];
      }
    }
  }

  /** The ids after the merge are the old ids and the fetched ids. */
  lemma {:induction false} MergeIds(chunks: seq<Chunk>, fetched: seq<StoredChunk>)
    ensures Ids(Merge(chunks, fetched)) == Ids(chunks) + set f | f in fetched :: f.chunkId
  {
    if fetched != [] {
      var n := |fetched| - 1;
      var m := Merge(chunks, fetched[..n]);
      var f := fetched[n];
      MergeIds(chunks, fetched[..n]);
      assert forall g :: g in fetched <==> g in fetched[..n] || g == f;
      if f.chunkId !in Ids(m) {
        IdsAppend(m, ContextChunk(f));
      }
    }
  }

  /** Every appended chunk is a score-0 copy of a fetched chunk whose id was not present. */
  lemma {:induction false} MergeAppended(chunks: seq<Chunk>, fetched: seq<StoredChunk>, j: int) returns (k: int)
    requires |chunks| <= j < |Merge(chunks, fetched)|
    ensures 0 <= k < |fetched| && Merge(chunks, fetched)[j] == ContextChunk(fetched[k])
    ensures Merge(chunks, fetched)[j].score == 0.0 && Merge(chunks, fetched)[j].chunkId !in Ids(chunks)
  {
    var n := |fetched| - 1;
    var m := Merge(chunks, fetched[..n]);
    var f := fetched[n];
    MergeIds(chunks, fetched[..n]);
    if j < |m| {
      k := MergeAppended(chunks, fetched[..n], j);
      assert fetched[..n][k] == fetched[k];
    } else {
      k := n;
    }
  }

  /** No two appended chunks share an id. */
  lemma {:induction false} MergeAppendedDistinct(chunks: seq<Chunk>, fetched: seq<StoredChunk>, i: int, j: int)
    requires |chunks| <= i < j < |Merge(chunks, fetched)|
    ensures Merge(chunks, fetched)[i].chunkId != Merge(chunks, fetched)[j].chunkId
  {
    var n := |fetched| - 1;
    var m := Merge(chunks, fetched[..n]);
    if j < |m| {
      MergeAppendedDistinct(chunks, fetched[..n], i, j);
    } else {
      assert m[i] in m;
    }
  }

  /** The merge keeps the present chunks as they were and appends, each once,
      a score-0 copy of every fetched chunk whose id is new. */
  lemma MergeFacts(chunks: seq<Chunk>, fetched: seq<StoredChunk>)
    ensures |chunks| <= |Merge(chunks, fetched)|
    ensures Merge(chunks, fetched)[..|chunks|] == chunks
    ensures forall j :: |chunks| <= j < |Merge(chunks, fetched)| ==>
      Merge(chunks, fetched)[j].score == 0.0 && Merge(chunks, fetched)[j].chunkId !in Ids(chunks)
      && exists k :: 0 <= k < |fetched| && Merge(chunks, fetched)[j] == ContextChunk(fetched[k])
    ensures forall i, j :: |chunks| <= i < j < |Merge(chunks, fetched)| ==>
      Merge(chunks, fetched)[i].chunkId != Merge(chunks, fetched)[j].chunkId
    ensures Ids(Merge(chunks, fetched)) == Ids(chunks) + set f | f in fetched :: f.chunkId
  {
    var m := Merge(chunks, fetched);
    MergePrefix(chunks, fetched);
    MergeIds(chunks, fetched);
    forall j | |chunks| <= j < |m|
      ensures m[j].score == 0.0 && m[j].chunkId !in Ids(chunks)
      ensures exists k :: 0 <= k < |fetched| && m[j] == ContextChunk(fetched[k])
    {
      var k := MergeAppended(chunks, fetched, j);
    }
    forall i, j | |chunks| <= i < j < |m| ensures m[i].chunkId != m[j].chunkId {
      MergeAppendedDistinct(chunks, fetched, i, j);
    }
  }

  /** Merging chunks that are all present already changes nothing. */
  lemma {:induction false} MergeNothingNew(chunks: seq<Chunk>, fetched: seq<StoredChunk>)
    requires forall f :: f in fetched ==> f.chunkId in Ids(chunks)
    ensures Merge(chunks, fetched) == chunks
  {
    if fetched != [] {
      var n := |fetched| - 1;
      assert forall g :: g in fetched[..n] ==> g in fetched;
      MergeNothingNew(chunks, fetched[..n]);
    }
  }

  /** Re-expanding with the same fetched chunks is a no-op (first write wins). */
  lemma MergeIdempotent(chunks: seq<Chunk>, fetched: seq<StoredChunk>)
    ensures Merge(Merge(chunks, fetched), fetched) == Merge(chunks, fetched)
  {
    MergeFacts(chunks, fetched);
    MergeNothingNew(Merge(chunks, fetched), fetched);
  }

  /** Appended chunks score 0, so the chunk scores still sum to the same total. */
  lemma {:induction false} MergeKeepsScoreSum(chunks: seq<Chunk>, fetched: seq<StoredChunk>)
    ensures ScoreSum(Merge(chunks, fetched)) == ScoreSum(chunks)
  {
    if fetched != [] {
      var n := |fetched| - 1;
      MergeKeepsScoreSum(chunks, fetched[..n]);
      var m := Merge(chunks, fetched[..n]);
      if fetched[n].chunkId !in Ids(m) {
        assert (m + [ContextChunk(fetched[n])])[..|m|] == m;
      }
    }
  }

  /** The loop of lines 134-147: append each fetched chunk whose id is not yet present. */
  method MergeFetched(chunks: seq<Chunk>, fetched: seq<StoredChunk>) returns (merged: seq<Chunk>)
    ensures merged == Merge(chunks, fetched)
  {
    merged := chunks;
    var existing := set c | c in chunks :: c.chunkId;
    var i := 0;
    while i < |fetched|
      invariant 0 <= i <= |fetched|
      invariant merged == Merge(chunks, fetched[..i])
      invariant existing == Ids(merged)
    {
      var f := fetched[i];
      assert fetched[..i + 1][..i] == fetched[..i];
      if f.chunkId !in existing {
        IdsAppend(merged, ContextChunk(f));
        merged := merged + [ContextChunk(f)];
        existing := existing + {f.chunkId};
      }
      i := i + 1;
    }
    assert fetched[..i] == fetched;
  }

  /** A document's entry after its window expansion. */
  function Expand(uuid: Uuid, e: Entry, window: int, threshold: real, maxScore: real, minScore: real,
                  fetch: (Uuid, set<int>) -> seq<StoredChunk>): Entry
    requires maxScore != minScore
  {
    var ids := RequestedIds(e.chunks, window, threshold, maxScore, minScore);
    if |ids| > 0 then e.(chunks := Merge(e.chunks, fetch(uuid, ids))) else e
  }

  /** Lines 117-147 for one document. `request` is the id set passed to
      get_chunk_by_ids, or None when no fetch is made. */
  method ExpandDocument(uuid: Uuid, e: Entry, window: int, threshold: real, maxScore: real, minScore: real,
                        fetch: (Uuid, set<int>) -> seq<StoredChunk>)
    returns (expanded: Entry, request: Option<set<int>>)
    requires maxScore != minScore
    ensures expanded == Expand(uuid, e, window, threshold, maxScore, minScore, fetch)
    ensures request.None? <==> RequestedIds(e.chunks, window, threshold, maxScore, minScore) == {}
    ensures request.Some? ==> request.value == RequestedIds(e.chunks, window, threshold, maxScore, minScore)
    ensures expanded.title == e.title && expanded.score == e.score && expanded.metadata == e.metadata
    ensures |e.chunks| <= |expanded.chunks| && expanded.chunks[..|e.chunks|] == e.chunks
  {
    var additional := CollectWindowIds(e.chunks, window, threshold, maxScore, minScore);
    var unique := set x | x in additional;
    if |unique| > 0 {
      var fetched := fetch(uuid, unique);
      var chunks := MergeFetched(e.chunks, fetched);
      MergeFacts(e.chunks, fetched);
      expanded := e.(chunks := chunks);
      request := Some(unique);
    } else {
      expanded := e;
      request := None;
    }
  }

  /** Expansion never changes the document's score, keeps the chunk-score sum,
      and keeps the chunk ids distinct when they were distinct. */
  lemma ExpandFacts(uuid: Uuid, e: Entry, window: int, threshold: real, maxScore: real, minScore: real,
                    fetch: (Uuid, set<int>) -> seq<StoredChunk>)
    requires maxScore != minScore
    ensures Expand(uuid, e, window, threshold, maxScore, minScore, fetch).score == e.score
    ensures ScoreSum(Expand(uuid, e, window, threshold, maxScore, minScore, fetch).chunks) == ScoreSum(e.chunks)
    ensures DistinctIds(e.chunks) ==> DistinctIds(Expand(uuid, e, window, threshold, maxScore, minScore, fetch).chunks)
  {
    var ids := RequestedIds(e.chunks, window, threshold, maxScore, minScore);
    if |ids| > 0 {
      var fetched := fetch(uuid, ids);
      MergeKeepsScoreSum(e.chunks, fetched);
      MergeFacts(e.chunks, fetched);
      var m := Merge(e.chunks, fetched);
      if DistinctIds(e.chunks) {
        forall i, j | 0 <= i < j < |m| ensures m[i].chunkId != m[j].chunkId {
          if j < |e.chunks| {
            assert m[i] == e.chunks[i] && m[j] == e.chunks[j];
          } else if i < |e.chunks| {
            assert m[i] == e.chunks[i];
            assert m[i] in e.chunks;
          }
        }
      }
    }
  }

  /** No two chunks of the list share an id. */
  predicate DistinctIds(cs: seq<Chunk>) {
    forall i, j :: 0 <= i < j < |cs| ==> cs[i].chunkId != cs[j].chunkId
  }
}
