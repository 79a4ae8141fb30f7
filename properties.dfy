/** Properties of a whole retrieve call, stated over RetrieveSpec, which
    Retrieve is proved to compute. */
module RetrieverProperties {

  import opened RetrieverTypes
  import opened RetrievalConfig
  import opened Scores
  import opened Sorting
  import opened Window
  import opened Grouping
  import opened Context
  import opened WindowRetriever

  /** One document is built per document id visited. */
  lemma {:induction false} DocumentsOfLength(order: seq<Uuid>, entries: map<Uuid, Entry>, window: int, threshold: real,
                                            maxScore: real, minScore: real, fetch: (Uuid, set<int>) -> seq<StoredChunk>)
    requires forall u :: u in order ==> u in entries
    requires order != [] ==> maxScore != minScore
    ensures |DocumentsOf(order, entries, window, threshold, maxScore, minScore, fetch)| == |order|
    ensures |ContextDocumentsOf(order, entries, window, threshold, maxScore, minScore, fetch)| == |order|
  {
    if order != [] {
      var n := |order| - 1;
      assert forall u :: u in order[..n] ==> u in order;
      DocumentsOfLength(order[..n], entries, window, threshold, maxScore, minScore, fetch);
    }
  }

  /** The k-th built document belongs to the k-th document id visited. */
  lemma {:induction false} DocumentAt(order: seq<Uuid>, entries: map<Uuid, Entry>, window: int, threshold: real,
                                     maxScore: real, minScore: real, fetch: (Uuid, set<int>) -> seq<StoredChunk>, k: int)
    requires forall u :: u in order ==> u in entries
    requires order != [] ==> maxScore != minScore
    requires 0 <= k < |order|
    ensures |DocumentsOf(order, entries, window, threshold, maxScore, minScore, fetch)| == |order|
    ensures DocumentsOf(order, entries, window, threshold, maxScore, minScore, fetch)[k]
      == ToDocument(order[k], Expand(order[k], entries[order[k]], window, threshold, maxScore, minScore, fetch))
  {
    DocumentsOfLength(order, entries, window, threshold, maxScore, minScore, fetch);
    var n := |order| - 1;
    var front := order[..n];
    if k < n {
      assert forall u :: u in front ==> u in order;
      DocumentAt(front, entries, window, threshold, maxScore, minScore, fetch, k);
      assert front[k] == order[k];
    }
  }

  /** The k-th built context document belongs to the k-th document id visited. */
  lemma {:induction false} ContextDocumentAt(order: seq<Uuid>, entries: map<Uuid, Entry>, window: int, threshold: real,
                                            maxScore: real, minScore: real, fetch: (Uuid, set<int>) -> seq<StoredChunk>, k: int)
    requires forall u :: u in order ==> u in entries
    requires order != [] ==> maxScore != minScore
    requires 0 <= k < |order|
    ensures |ContextDocumentsOf(order, entries, window, threshold, maxScore, minScore, fetch)| == |order|
    ensures ContextDocumentsOf(order, entries, window, threshold, maxScore, minScore, fetch)[k]
      == ToContextDocument(order[k], Expand(order[k], entries[order[k]], window, threshold, maxScore, minScore, fetch))
  {
    DocumentsOfLength(order, entries, window, threshold, maxScore, minScore, fetch);
    var n := |order| - 1;
    var front := order[..n];
    if k < n {
      assert forall u :: u in front ==> u in order;
      ContextDocumentAt(front, entries, window, threshold, maxScore, minScore, fetch, k);
      assert front[k] == order[k];
    }
  }

  /** The document view of a context document. */
  function ViewOf(d: ContextDocument): Document {
    Document(d.title, MapSeq(RefOf, d.chunks), d.score, d.metadata, d.uuid)
  }

  function UuidOf(d: Document): Uuid { d.uuid }

  lemma {:induction false} KeptNone(hits: seq<Hit>, getDocument: Uuid -> Option<DocInfo>)
    requires forall h :: h in hits ==> getDocument(h.docUuid).None?
    ensures Kept(hits, getDocument) == []
  {
    if hits != [] {
      var n := |hits| - 1;
      assert forall h :: h in hits[..n] ==> h in hits;
      KeptNone(hits[..n], getDocument);
    }
  }

  lemma {:induction false} DedupEmpty(s: seq<Uuid>)
    ensures Dedup(s) == [] <==> s == []
  {
    if s != [] {
      DedupMembers(s, s[|s| - 1]);
    }
  }

  lemma DocUuidsLength(hits: seq<Hit>)
    ensures |DocUuids(hits)| == |hits|
  {
  }

  /** doc_map is empty exactly when no hit was kept. */
  lemma OrderEmptyIff(hits: seq<Hit>, getDocument: Uuid -> Option<DocInfo>)
    ensures Group(hits, getDocument).order == [] <==> Kept(hits, getDocument) == []
  {
    GroupOrder(hits, getDocument);
    DedupEmpty(DocUuids(Kept(hits, getDocument)));
    DocUuidsLength(Kept(hits, getDocument));
  }

  /** The short-circuit message is returned exactly when the search finds nothing. */
  lemma EmptySearchIff(config: Config, hits: seq<Hit>, store: Store,
                       formatScore: real -> string, showMetadata: Metadata -> string)
    ensures RetrieveSpec(config, hits, store, formatScore, showMetadata) == Ok([], NoChunksMessage) <==> hits == []
  {
    if hits != [] && !Degenerate(hits, store.getDocument) {
      GroupScores(hits, store.getDocument);
      GroupKeys(hits, store.getDocument);
      var g := Group(hits, store.getDocument);
      var window, threshold := ClampWindow(config.chunkWindow), ClampThreshold(config.threshold);
      DocumentsOfLength(g.order, g.entries, window, threshold, MaxOf(g.scores), MinOf(g.scores), store.getChunkByIds);
      var docs := UnsortedDocuments(config, hits, store);
      SortPermutation(docs, DocumentKey);
      if g.order == [] {
        var ctx := UnsortedContextDocuments(config, hits, store);
        assert ctx == [];
        assert ContextText(SortBy(ctx, ContextDocumentKey), formatScore, showMetadata) == "";
        assert NoChunksMessage != "";
      } else {
        assert |SortBy(docs, DocumentKey)| > 0;
      }
    }
  }

  /** When every hit's document is unknown to the store, the result is an
      empty document list and an empty context. */
  lemma AllHitsDropped(config: Config, hits: seq<Hit>, store: Store,
                       formatScore: real -> string, showMetadata: Metadata -> string)
    requires hits != []
    requires forall h :: h in hits ==> store.getDocument(h.docUuid).None?
    ensures RetrieveSpec(config, hits, store, formatScore, showMetadata) == Ok([], "")
  {
    KeptNone(hits, store.getDocument);
    OrderEmptyIff(hits, store.getDocument);
    GroupScores(hits, store.getDocument);
    GroupKeys(hits, store.getDocument);
  }

  /** retrieve raises ZeroDivisionError exactly when some hit is kept and
      every kept hit scores 0. */
  lemma ZeroDivisionIff(config: Config, hits: seq<Hit>, store: Store,
                        formatScore: real -> string, showMetadata: Metadata -> string)
    ensures RetrieveSpec(config, hits, store, formatScore, showMetadata).ZeroDivision? <==>
      Kept(hits, store.getDocument) != [] && forall x :: x in HitScores(Kept(hits, store.getDocument)) ==> x == 0.0
  {
    var k := Kept(hits, store.getDocument);
    OrderEmptyIff(hits, store.getDocument);
    GroupScores(hits, store.getDocument);
    DegenerateIffAllZero(HitScores(k));
    if hits == [] {
      assert k == [];
    }
  }

  /** The unsorted context documents project onto the unsorted documents:
      the two lists are built from the same expanded entries. */
  lemma UnsortedViews(config: Config, hits: seq<Hit>, store: Store)
    requires !Degenerate(hits, store.getDocument)
    ensures UnsortedDocuments(config, hits, store) == MapSeq(ViewOf, UnsortedContextDocuments(config, hits, store))
  {
    GroupScores(hits, store.getDocument);
    GroupKeys(hits, store.getDocument);
    var g := Group(hits, store.getDocument);
    var window, threshold := ClampWindow(config.chunkWindow), ClampThreshold(config.threshold);
    DocumentsOfLength(g.order, g.entries, window, threshold, MaxOf(g.scores), MinOf(g.scores), store.getChunkByIds);
    var docs := UnsortedDocuments(config, hits, store);
    var ctx := UnsortedContextDocuments(config, hits, store);
    forall k | 0 <= k < |docs| ensures docs[k] == ViewOf(ctx[k]) {
      DocumentAt(g.order, g.entries, window, threshold, MaxOf(g.scores), MinOf(g.scores), store.getChunkByIds, k);
      ContextDocumentAt(g.order, g.entries, window, threshold, MaxOf(g.scores), MinOf(g.scores), store.getChunkByIds, k);
      var u := g.order[k];
      var e := Expand(u, g.entries[u], window, threshold, MaxOf(g.scores), MinOf(g.scores), store.getChunkByIds);
      SortMap(RefOf, e.chunks, ChunkKey, RefKey);
    }
  }

  /** Both output views list the same documents in the same order: the
      returned documents are the context documents without chunk contents,
      and the context is rendered from exactly those context documents. */
  lemma ViewsAgree(config: Config, hits: seq<Hit>, store: Store,
                   formatScore: real -> string, showMetadata: Metadata -> string)
    requires hits != [] && !Degenerate(hits, store.getDocument)
    ensures var r := RetrieveSpec(config, hits, store, formatScore, showMetadata);
      var ctx := SortBy(UnsortedContextDocuments(config, hits, store), ContextDocumentKey);
      r.Ok? && r.documents == MapSeq(ViewOf, ctx) && r.context == ContextText(ctx, formatScore, showMetadata)
  {
    UnsortedViews(config, hits, store);
    SortMap(ViewOf, UnsortedContextDocuments(config, hits, store), ContextDocumentKey, DocumentKey);
  }

  /** The k-th unsorted document is built from the k-th document of doc_map. */
  lemma UnsortedAt(config: Config, hits: seq<Hit>, store: Store, k: int)
    requires !Degenerate(hits, store.getDocument)
    requires 0 <= k < |Group(hits, store.getDocument).order|
    ensures |UnsortedDocuments(config, hits, store)| == |Group(hits, store.getDocument).order|
    ensures (GroupScores(hits, store.getDocument); GroupKeys(hits, store.getDocument);
      var g := Group(hits, store.getDocument);
      var u := g.order[k];
      UnsortedDocuments(config, hits, store)[k]
        == ToDocument(u, Expand(u, g.entries[u], ClampWindow(config.chunkWindow), ClampThreshold(config.threshold),
                                MaxOf(g.scores), MinOf(g.scores), store.getChunkByIds)))
  {
    GroupScores(hits, store.getDocument);
    GroupKeys(hits, store.getDocument);
    var g := Group(hits, store.getDocument);
    DocumentAt(g.order, g.entries, ClampWindow(config.chunkWindow), ClampThreshold(config.threshold),
               MaxOf(g.scores), MinOf(g.scores), store.getChunkByIds, k);
  }

  /** The unsorted documents name the documents of doc_map in insertion order. */
  lemma UnsortedUuids(config: Config, hits: seq<Hit>, store: Store)
    requires !Degenerate(hits, store.getDocument)
    ensures MapSeq(UuidOf, UnsortedDocuments(config, hits, store)) == Group(hits, store.getDocument).order
  {
    var order := Group(hits, store.getDocument).order;
    var docs := UnsortedDocuments(config, hits, store);
    if order == [] {
      GroupScores(hits, store.getDocument);
      GroupKeys(hits, store.getDocument);
      assert docs == [];
    } else {
      UnsortedAt(config, hits, store, 0);
      forall k | 0 <= k < |order| ensures docs[k].uuid == order[k] {
        UnsortedAt(config, hits, store, k);
      }
    }
  }

  /** What a returned document carries: a known document's title and
      metadata, the sum of the raw scores of its hits, chunks in chunk-id order. */
  ghost predicate WellBuilt(d: Document, hits: seq<Hit>, getDocument: Uuid -> Option<DocInfo>) {
    && getDocument(d.uuid).Some?
    && d.title == getDocument(d.uuid).value.title
    && d.metadata == getDocument(d.uuid).value.metadata
    && d.score == Sum(HitScores(HitsOf(hits, d.uuid)))
    && SortedBy(d.chunks, RefKey)
  }

  lemma UnsortedWellBuilt(config: Config, hits: seq<Hit>, store: Store, k: int)
    requires !Degenerate(hits, store.getDocument)
    requires 0 <= k < |UnsortedDocuments(config, hits, store)|
    ensures WellBuilt(UnsortedDocuments(config, hits, store)[k], hits, store.getDocument)
  {
    GroupScores(hits, store.getDocument);
    GroupKeys(hits, store.getDocument);
    var g := Group(hits, store.getDocument);
    UnsortedAt(config, hits, store, 0);
    UnsortedAt(config, hits, store, k);
    var u := g.order[k];
    var window, threshold := ClampWindow(config.chunkWindow), ClampThreshold(config.threshold);
    var e := Expand(u, g.entries[u], window, threshold, MaxOf(g.scores), MinOf(g.scores), store.getChunkByIds);
    ExpandFacts(u, g.entries[u], window, threshold, MaxOf(g.scores), MinOf(g.scores), store.getChunkByIds);
    GroupEntry(hits, store.getDocument, u);
    SortSorted(MapSeq(RefOf, e.chunks), RefKey);
  }

  /** Sorting the documents moves them and changes none of them. */
  lemma SortedWellBuilt(config: Config, hits: seq<Hit>, store: Store, d: Document)
    requires !Degenerate(hits, store.getDocument)
    requires d in SortBy(UnsortedDocuments(config, hits, store), DocumentKey)
    ensures WellBuilt(d, hits, store.getDocument)
  {
    var docs := UnsortedDocuments(config, hits, store);
    SortPermutation(docs, DocumentKey);
    assert d in multiset(docs);
    var k :| 0 <= k < |docs| && docs[k] == d;
    UnsortedWellBuilt(config, hits, store, k);
  }

  /** The ranking: documents by descending score, ties in first-sighting
      order (the order their documents first appear among the kept hits),
      and the documents themselves are exactly the unsorted ones. */
  lemma Ranking(config: Config, hits: seq<Hit>, store: Store,
                formatScore: real -> string, showMetadata: Metadata -> string)
    requires hits != [] && !Degenerate(hits, store.getDocument)
    ensures var r := RetrieveSpec(config, hits, store, formatScore, showMetadata);
      var unsorted := UnsortedDocuments(config, hits, store);
      && r.Ok?
      && (forall i, j :: 0 <= i < j < |r.documents| ==> r.documents[i].score >= r.documents[j].score)
      && StableFor(r.documents, unsorted, DocumentKey)
      && multiset(r.documents) == multiset(unsorted)
      && MapSeq(UuidOf, unsorted) == Dedup(DocUuids(Kept(hits, store.getDocument)))
  {
    var unsorted := UnsortedDocuments(config, hits, store);
    var sorted := SortBy(unsorted, DocumentKey);
    SortSorted(unsorted, DocumentKey);
    SortStable(unsorted, DocumentKey);
    SortPermutation(unsorted, DocumentKey);
    UnsortedUuids(config, hits, store);
    GroupOrder(hits, store.getDocument);
    forall i, j | 0 <= i < j < |sorted| ensures sorted[i].score >= sorted[j].score {
      assert DocumentKey(sorted[i]) <= DocumentKey(sorted[j]);
    }
  }

  /** Every returned document's chunks ascend by chunk id. */
  lemma ChunksAscending(config: Config, hits: seq<Hit>, store: Store,
                        formatScore: real -> string, showMetadata: Metadata -> string, d: Document)
    requires hits != [] && !Degenerate(hits, store.getDocument)
    requires d in RetrieveSpec(config, hits, store, formatScore, showMetadata).documents
    ensures forall i, j :: 0 <= i < j < |d.chunks| ==> d.chunks[i].chunkId <= d.chunks[j].chunkId
  {
    SortedWellBuilt(config, hits, store, d);
    forall i, j | 0 <= i < j < |d.chunks| ensures d.chunks[i].chunkId <= d.chunks[j].chunkId {
      assert RefKey(d.chunks[i]) <= RefKey(d.chunks[j]);
    }
  }

  /** Each returned document is one the store knows; its title and metadata
      are the store's and its score is the sum of the raw scores of its
      hits, whatever the window expansion appended. */
  lemma DocumentScores(config: Config, hits: seq<Hit>, store: Store,
                       formatScore: real -> string, showMetadata: Metadata -> string, d: Document)
    requires hits != [] && !Degenerate(hits, store.getDocument)
    requires d in RetrieveSpec(config, hits, store, formatScore, showMetadata).documents
    ensures store.getDocument(d.uuid).Some?
    ensures d.title == store.getDocument(d.uuid).value.title
    ensures d.metadata == store.getDocument(d.uuid).value.metadata
    ensures d.score == Sum(HitScores(HitsOf(hits, d.uuid)))
  {
    SortedWellBuilt(config, hits, store, d);
  }

  /** Exactly the known documents with at least one hit are returned, each once. */
  lemma DocumentsReturned(config: Config, hits: seq<Hit>, store: Store,
                          formatScore: real -> string, showMetadata: Metadata -> string)
    requires hits != [] && !Degenerate(hits, store.getDocument)
    ensures var r := RetrieveSpec(config, hits, store, formatScore, showMetadata);
      && (forall u :: u in MapSeq(UuidOf, r.documents) <==> store.getDocument(u).Some? && HitsOf(hits, u) != [])
      && (forall i, j :: 0 <= i < j < |r.documents| ==> r.documents[i].uuid != r.documents[j].uuid)
  {
    var unsorted := UnsortedDocuments(config, hits, store);
    var sorted := SortBy(unsorted, DocumentKey);
    var order := Group(hits, store.getDocument).order;
    SortPermutation(unsorted, DocumentKey);
    UnsortedUuids(config, hits, store);
    GroupKeys(hits, store.getDocument);
    forall u ensures u in MapSeq(UuidOf, sorted) <==> store.getDocument(u).Some? && HitsOf(hits, u) != [] {
      GroupEntry(hits, store.getDocument, u);
      UuidsPermuted(unsorted, sorted, u);
    }
    forall i, j | 0 <= i < j < |sorted| ensures sorted[i].uuid != sorted[j].uuid {
      DistinctAfterPermutation(unsorted, sorted, order, i, j);
    }
  }

  /** Permuting documents permutes their ids. */
  lemma UuidsPermuted(s: seq<Document>, t: seq<Document>, u: Uuid)
    requires multiset(t) == multiset(s)
    ensures u in MapSeq(UuidOf, t) <==> u in MapSeq(UuidOf, s)
  {
    if u in MapSeq(UuidOf, t) {
      var i :| 0 <= i < |t| && MapSeq(UuidOf, t)[i] == u;
      assert t[i] in multiset(s);
      var k :| 0 <= k < |s| && s[k] == t[i];
      assert MapSeq(UuidOf, s)[k] == u;
    }
    if u in MapSeq(UuidOf, s) {
      var k :| 0 <= k < |s| && MapSeq(UuidOf, s)[k] == u;
      assert s[k] in multiset(t);
      var i :| 0 <= i < |t| && t[i] == s[k];
      assert MapSeq(UuidOf, t)[i] == u;
    }
  }

  /** A permutation of a list of documents with distinct ids has distinct ids. */
  lemma DistinctAfterPermutation(s: seq<Document>, t: seq<Document>, ids: seq<Uuid>, i: int, j: int)
    requires |s| == |ids| && Distinct(ids)
    requires forall k :: 0 <= k < |s| ==> s[k].uuid == ids[k]
    requires multiset(t) == multiset(s)
    requires 0 <= i < j < |t|
    ensures t[i].uuid != t[j].uuid
  {
    if t[i].uuid == t[j].uuid {
      assert t[i] in multiset(s) && t[j] in multiset(s);
      var a :| 0 <= a < |s| && s[a] == t[i];
      var b :| 0 <= b < |s| && s[b] == t[j];
      assert a == b;
      assert t[i] == t[j];
      var m := multiset(t);
      assert m[t[i]] >= 2 by {
        assert t == t[..i] + [t[i]] + t[i + 1..j] + [t[j]] + t[j + 1..];
      }
      CountDistinct(s, ids, a);
      assert false;
    }
  }

  lemma CountDistinct(s: seq<Document>, ids: seq<Uuid>, a: int)
    requires |s| == |ids| && Distinct(ids)
    requires forall k :: 0 <= k < |s| ==> s[k].uuid == ids[k]
    requires 0 <= a < |s|
    ensures multiset(s)[s[a]] == 1
  {
    var x := s[a];
    assert s == s[..a] + [x] + s[a + 1..];
    forall k | 0 <= k < |s| && k != a ensures s[k] != x {
      assert ids[k] != ids[a];
    }
    assert x !in s[..a] by {
      forall k | 0 <= k < a ensures s[..a][k] != x { assert s[..a][k] == s[k]; }
    }
    var t := s[a + 1..];
    assert x !in t by {
      forall j | 0 <= j < |t| ensures t[j] != x { assert t[j] == s[a + 1 + j]; }
    }
    assert multiset(s) == multiset(s[..a]) + multiset{x} + multiset(t);
  }

  /** Two hits on one document, chunk 0 scoring 90 and chunk 2 scoring 10,
      window 1 and threshold 80: the score list is [0, 90, 10], so chunk 2
      normalises to 1/9 (not 0) and stays below the threshold, while chunk 0
      normalises to 1 and asks for its neighbours -1 and 1. */
  lemma TwoChunkScenario(d: Uuid, a: Chunk, b: Chunk)
    requires a.chunkId == 0 && a.score == 90.0 && b.chunkId == 2 && b.score == 10.0
    ensures MinOf([0.0, 90.0, 10.0]) == 0.0 && MaxOf([0.0, 90.0, 10.0]) == 90.0
    ensures Normalize(a.score, 90.0, 0.0) == 1.0
    ensures Normalize(b.score, 90.0, 0.0) == 1.0 / 9.0
    ensures AdditionalIds([a, b], ClampWindow(1), ClampThreshold(80), 90.0, 0.0) == [-1, 1]
    ensures RequestedIds([a, b], ClampWindow(1), ClampThreshold(80), 90.0, 0.0) == {-1, 1}
  {
    var cs := [a, b];
    assert ClampWindow(1) == 1 && ClampThreshold(80) == 0.8;
    assert cs[..1] == [a];
    assert [a][..0] == [];
    assert WindowList(0, 1) == [-1, 1] by {
      assert RangeWithout(1, 2, 0) == [1];
    }
    assert AboveThreshold(a, 0.8, 90.0, 0.0);
    assert AdditionalIds([a], 1, 0.8, 90.0, 0.0) == [-1, 1];
    assert !AboveThreshold(b, 0.8, 90.0, 0.0);
  }

  /** The grouping of the two hits of TwoHitRetrieval. */
  lemma TwoHitGroup(hits: seq<Hit>, getDocument: Uuid -> Option<DocInfo>, d: Uuid, info: DocInfo,
                    ca: string, cb: string)
    requires hits == [Hit("a", d, 0, ca, 90.0), Hit("b", d, 2, cb, 10.0)]
    requires getDocument(d) == Some(info)
    ensures Group(hits, getDocument) ==
      Groups(map[d := Entry(info.title, [HitChunk(hits[0]), HitChunk(hits[1])], 100.0, info.metadata)], [d], [0.0, 90.0, 10.0])
  {
    var x0, x2 := HitChunk(hits[0]), HitChunk(hits[1]);
    assert hits[..1] == [hits[0]] && [hits[0]][..0] == [];
    var g0 := Groups(map[], [], [0.0]);
    var g1 := Groups(map[d := Entry(info.title, [x0], 90.0, info.metadata)], [d], [0.0, 90.0]);
    assert Group([hits[0]], getDocument) == AddHit(g0, hits[0], getDocument);
    assert [] + [x0] == [x0] && [] + [d] == [d];
    assert g0.entries[d := Entry(info.title, [x0], 90.0, info.metadata)] == g1.entries;
    assert Group(hits, getDocument) == AddHit(g1, hits[1], getDocument);
    assert [x0] + [x2] == [x0, x2];
  }

  /** The expansion of that document: chunk 1 is fetched and appended. */
  lemma TwoHitExpand(d: Uuid, e: Entry, x0: Chunk, x2: Chunk, cc: string, fetch: (Uuid, set<int>) -> seq<StoredChunk>)
    requires x0.chunkId == 0 && x0.score == 90.0 && x2.chunkId == 2 && x2.score == 10.0
    requires e.chunks == [x0, x2]
    requires fetch(d, {-1, 1}) == [StoredChunk("c", 1, cc)]
    ensures Expand(d, e, 1, 0.8, 90.0, 0.0, fetch) == e.(chunks := [x0, x2, ContextChunk(StoredChunk("c", 1, cc))])
  {
    TwoChunkScenario(d, x0, x2);
    assert ClampWindow(1) == 1 && ClampThreshold(80) == 0.8;
    var f := StoredChunk("c", 1, cc);
    assert Ids([x0, x2]) == {0, 2} by {
      assert forall c :: c in [x0, x2] <==> c == x0 || c == x2;
    }
    assert [f][..0] == [];
    assert Merge([x0, x2], [f]) == [x0, x2] + [ContextChunk(f)];
    assert |{-1, 1}| == 2;
  }

  /** The chunk references of the expanded document, sorted by chunk id. */
  lemma TwoHitSort(x0: Chunk, x2: Chunk, xc: Chunk)
    requires x0.chunkId == 0 && xc.chunkId == 1 && x2.chunkId == 2
    ensures SortBy(MapSeq(RefOf, [x0, x2, xc]), RefKey) == [RefOf(x0), RefOf(xc), RefOf(x2)]
  {
    var r0, r1, r2 := RefOf(x0), RefOf(xc), RefOf(x2);
    assert MapSeq(RefOf, [x0, x2, xc]) == [r0, r2, r1];
    assert [r0, r2, r1][1..] == [r2, r1] && [r2, r1][1..] == [r1] && [r1][1..] == [];
    assert SortBy([r1], RefKey) == [r1];
    assert InsertBy(r2, [r1], RefKey) == [r1, r2];
  }

  /** The documents built for the two hits, before the final sort. */
  lemma TwoHitDocuments(config: Config, hits: seq<Hit>, store: Store, d: Uuid, info: DocInfo,
                        ca: string, cb: string, cc: string)
    requires config.chunkWindow == 1 && config.threshold == 80
    requires hits == [Hit("a", d, 0, ca, 90.0), Hit("b", d, 2, cb, 10.0)]
    requires store.getDocument(d) == Some(info)
    requires store.getChunkByIds(d, {-1, 1}) == [StoredChunk("c", 1, cc)]
    ensures !Degenerate(hits, store.getDocument)
    ensures UnsortedDocuments(config, hits, store) ==
      [Document(info.title, [ChunkRef("a", 90.0, 0), ChunkRef("c", 0.0, 1), ChunkRef("b", 10.0, 2)], 100.0, info.metadata, d)]
  {
    var x0, x2 := HitChunk(hits[0]), HitChunk(hits[1]);
    var xc := ContextChunk(StoredChunk("c", 1, cc));
    var e := Entry(info.title, [x0, x2], 100.0, info.metadata);
    TwoHitGroup(hits, store.getDocument, d, info, ca, cb);
    TwoChunkScenario(d, x0, x2);
    assert ClampWindow(1) == 1 && ClampThreshold(80) == 0.8;
    TwoHitExpand(d, e, x0, x2, cc, store.getChunkByIds);
    assert [d][..0] == [];
    var doc := ToDocument(d, e.(chunks := [x0, x2, xc]));
    assert DocumentsOf([d], map[d := e], 1, 0.8, 90.0, 0.0, store.getChunkByIds) == [doc];
    TwoHitSort(x0, x2, xc);
  }

  /** The same two hits end to end. Both belong to document d, which the store
      knows; the store answers the request for {-1, 1} with chunk 1 alone. The
      call returns one document whose chunks are 0, 1 and 2 in that order, with
      the fetched chunk 1 scoring 0, and whose score is 90 + 10 = 100. */
  lemma TwoHitRetrieval(config: Config, hits: seq<Hit>, store: Store, d: Uuid, info: DocInfo,
                        ca: string, cb: string, cc: string,
                        formatScore: real -> string, showMetadata: Metadata -> string)
    requires config.chunkWindow == 1 && config.threshold == 80
    requires hits == [Hit("a", d, 0, ca, 90.0), Hit("b", d, 2, cb, 10.0)]
    requires store.getDocument(d) == Some(info)
    requires store.getChunkByIds(d, {-1, 1}) == [StoredChunk("c", 1, cc)]
    ensures RetrieveSpec(config, hits, store, formatScore, showMetadata).Ok?
    ensures RetrieveSpec(config, hits, store, formatScore, showMetadata).documents ==
      [Document(info.title, [ChunkRef("a", 90.0, 0), ChunkRef("c", 0.0, 1), ChunkRef("b", 10.0, 2)], 100.0, info.metadata, d)]
  {
    TwoHitDocuments(config, hits, store, d, info, ca, cb, cc);
    var doc := Document(info.title, [ChunkRef("a", 90.0, 0), ChunkRef("c", 0.0, 1), ChunkRef("b", 10.0, 2)], 100.0, info.metadata, d);
    assert [doc][1..] == [];
    assert SortBy([doc], DocumentKey) == InsertBy(doc, [], DocumentKey) == [doc];
    assert RetrieveSpec(config, hits, store, formatScore, showMetadata).documents
      == SortBy(UnsortedDocuments(config, hits, store), DocumentKey);
  }
}
