/** Grouping of the search hits by document (lines 79-101 of retrieve): the
    ordered doc_map, each document's chunks and summed score, and the score
    list seeded with 0 that normalisation takes its bounds from. */
module Grouping {

  import opened RetrieverTypes
  import opened Scores

  /** doc_map, with its insertion order kept in `order`, and the list `scores`. */
  datatype Groups = Groups(entries: map<Uuid, Entry>, order: seq<Uuid>, scores: seq<real>)

  /** A search hit as stored in its document's chunk list. */
  function HitChunk(h: Hit): Chunk {
    Chunk(h.uuid, h.score, h.chunkId, h.content)
  }

  /** The entry created on the first sighting of a document. */
  function NewEntry(info: DocInfo): Entry {
    Entry(info.title, [], 0.0, info.metadata)
  }

  /** One iteration of the grouping loop. A hit whose unseen document is not
      found is skipped; get_document is asked only for unseen documents. */
  function AddHit(g: Groups, h: Hit, getDocument: Uuid -> Option<DocInfo>): Groups {
    if h.docUuid !in g.entries && getDocument(h.docUuid).None? then g
    else
      var e := if h.docUuid in g.entries then g.entries[h.docUuid] else NewEntry(getDocument(h.docUuid).value);
      var order := if h.docUuid in g.entries then g.order else g.order + [h.docUuid];
      var e' := e.(chunks := e.chunks + [HitChunk(h)], score := e.score + h.score);
      Groups(g.entries[h.docUuid := e'], order, g.scores + [h.score])
  }

  /** The state after the grouping loop has run over `hits`. */
  function Group(hits: seq<Hit>, getDocument: Uuid -> Option<DocInfo>): Groups {
    if hits == [] then Groups(map[], [], [0.0])
    else AddHit(Group(hits[..|hits| - 1], getDocument), hits[|hits| - 1], getDocument)
  }

  /** The grouping loop of lines 79-101. */
  method GroupHits(hits: seq<Hit>, getDocument: Uuid -> Option<DocInfo>)
    returns (docMap: map<Uuid, Entry>, order: seq<Uuid>, scores: seq<real>)
    ensures Groups(docMap, order, scores) == Group(hits, getDocument)
  {
    docMap, order, scores := map[], [], [0.0];
    var i := 0;
    while i < |hits|
      invariant 0 <= i <= |hits|
      invariant Groups(docMap, order, scores) == Group(hits[..i], getDocument)
    {
      var hit := hits[i];
      assert hits[..i + 1][..i] == hits[..i];
      var skip := false;
      if hit.docUuid !in docMap {
        var document := getDocument(hit.docUuid);
        if document.None? {
          skip := true;
        } else {
          docMap := docMap[hit.docUuid := NewEntry(document.value)];
          order := order + [hit.docUuid];
        }
      }
      if !skip {
        var e := docMap[hit.docUuid];
        docMap := docMap[hit.docUuid := e.(chunks := e.chunks + [HitChunk(hit)])];
        e := docMap[hit.docUuid];
        docMap := docMap[hit.docUuid := e.(score := e.score + hit.score)];
        scores := scores + [hit.score];
      }
      i := i + 1;
    }
    assert hits[..i] == hits;
  }

  // Reference definitions the grouping is characterised by.

  /** The hits that survive: those whose document get_document finds. */
  function Kept(hits: seq<Hit>, getDocument: Uuid -> Option<DocInfo>): seq<Hit> {
    if hits == [] then []
    else
      var h := hits[|hits| - 1];
      Kept(hits[..|hits| - 1], getDocument) + (if getDocument(h.docUuid).Some? then [h] else [])
  }

  /** The hits of document u, in arrival order. */
  function HitsOf(hits: seq<Hit>, u: Uuid): seq<Hit> {
    if hits == [] then []
    else
      var h := hits[|hits| - 1];
      HitsOf(hits[..|hits| - 1], u) + (if h.docUuid == u then [h] else [])
  }

  function HitScores(hits: seq<Hit>): seq<real> {
    if hits == [] then [] else HitScores(hits[..|hits| - 1]) + [hits[|hits| - 1].score]
  }

  function HitChunks(hits: seq<Hit>): seq<Chunk> {
    if hits == [] then [] else HitChunks(hits[..|hits| - 1]) + [HitChunk(hits[|hits| - 1])]
  }

  function DocUuids(hits: seq<Hit>): seq<Uuid> {
    if hits == [] then [] else DocUuids(hits[..|hits| - 1]) + [hits[|hits| - 1].docUuid]
  }

  /** The distinct elements of s in order of first occurrence. */
  function Dedup(s: seq<Uuid>): seq<Uuid> {
    if s == [] then []
    else
      var d := Dedup(s[..|s| - 1]);
      if s[|s| - 1] in d then d else d + [s[|s| - 1]]
  }

  predicate Distinct(s: seq<Uuid>) {
    forall i, j :: 0 <= i < j < |s| ==> s[i] != s[j]
  }

  /** The score list is 0 followed by the raw scores of the kept hits, in order:
      a hit whose document is not found contributes nothing. */
  lemma {:induction false} GroupScores(hits: seq<Hit>, getDocument: Uuid -> Option<DocInfo>)
    ensures Group(hits, getDocument).scores == [0.0] + HitScores(Kept(hits, getDocument))
  {
    if hits != [] {
      var n := |hits| - 1;
      var h := hits[n];
      GroupScores(hits[..n], getDocument);
      GroupEntry(hits[..n], getDocument, h.docUuid);
      var g := Group(hits[..n], getDocument);
      var k := Kept(hits[..n], getDocument);
      if getDocument(h.docUuid).Some? {
        assert Kept(hits, getDocument) == k + [h];
        assert (k + [h])[..|k|] == k;
        assert HitScores(k + [h]) == HitScores(k) + [h.score];
        assert Group(hits, getDocument).scores == g.scores + [h.score];
      } else {
        assert h.docUuid !in g.entries;
        assert Kept(hits, getDocument) == k;
      }
    }
  }

  /** Appending one hit appends its chunk and adds its score to the sum. */
  lemma AppendHit(s: seq<Hit>, h: Hit)
    ensures HitChunks(s + [h]) == HitChunks(s) + [HitChunk(h)]
    ensures Sum(HitScores(s + [h])) == Sum(HitScores(s)) + h.score
    ensures HitChunks([h]) == [HitChunk(h)] && HitScores([h]) == [h.score]
  {
    assert (s + [h])[..|s|] == s;
    assert HitScores(s + [h]) == HitScores(s) + [h.score];
    var sc := HitScores(s) + [h.score];
    assert sc[..|sc| - 1] == HitScores(s);
  }

  /** What doc_map holds for a document u: it is present exactly when u is
      found and has a hit; its chunks are u's hits in arrival order and its
      score is the sum of their raw scores. */
  lemma {:induction false} GroupEntry(hits: seq<Hit>, getDocument: Uuid -> Option<DocInfo>, u: Uuid)
    ensures u in Group(hits, getDocument).entries <==> getDocument(u).Some? && HitsOf(hits, u) != []
    ensures u in Group(hits, getDocument).entries ==>
      var e := Group(hits, getDocument).entries[u];
      && e.title == getDocument(u).value.title
      && e.metadata == getDocument(u).value.metadata
      && e.chunks == HitChunks(HitsOf(hits, u))
      && e.score == Sum(HitScores(HitsOf(hits, u)))
  {
    if hits != [] {
      var n := |hits| - 1;
      var h := hits[n];
      var g := Group(hits[..n], getDocument);
      GroupEntry(hits[..n], getDocument, u);
      var s := HitsOf(hits[..n], u);
      if h.docUuid == u {
        assert HitsOf(hits, u) == s + [h];
        AppendHit(s, h);
        if u in g.entries {
          var e := g.entries[u];
          assert Group(hits, getDocument).entries[u] == e.(chunks := e.chunks + [HitChunk(h)], score := e.score + h.score);
        } else if getDocument(u).Some? {
          assert s == [];
        }
      } else {
        assert HitsOf(hits, u) == s;
      }
    }
  }

  lemma {:induction false} DedupMembers(s: seq<Uuid>, u: Uuid)
    ensures u in Dedup(s) <==> u in s
  {
    if s != [] {
      DedupMembers(s[..|s| - 1], u);
      assert s == s[..|s| - 1] + [s[|s| - 1]];
    }
  }

  /** doc_map's keys are listed once each in `order`. */
  lemma {:induction false} GroupKeys(hits: seq<Hit>, getDocument: Uuid -> Option<DocInfo>)
    ensures forall u :: u in Group(hits, getDocument).entries <==> u in Group(hits, getDocument).order
    ensures Distinct(Group(hits, getDocument).order)
  {
    if hits != [] {
      var n := |hits| - 1;
      var h := hits[n];
      GroupKeys(hits[..n], getDocument);
      var g := Group(hits[..n], getDocument);
      var g' := Group(hits, getDocument);
      if h.docUuid !in g.entries && getDocument(h.docUuid).Some? {
        assert g'.order == g.order + [h.docUuid];
        assert g'.entries.Keys == g.entries.Keys + {h.docUuid};
        assert forall u :: u in g'.order <==> u in g.order || u == h.docUuid;
      } else {
        assert g'.order == g.order;
        assert g'.entries.Keys == g.entries.Keys;
      }
    }
  }

  /** A document in doc_map is one get_document found. */
  lemma EntryFound(hits: seq<Hit>, getDocument: Uuid -> Option<DocInfo>, u: Uuid)
    ensures u in Group(hits, getDocument).entries ==> getDocument(u).Some?
  {
    GroupEntry(hits, getDocument, u);
  }

  /** `order` lists the kept hits' documents in order of first sighting. */
  lemma {:induction false} GroupOrder(hits: seq<Hit>, getDocument: Uuid -> Option<DocInfo>)
    ensures Group(hits, getDocument).order == Dedup(DocUuids(Kept(hits, getDocument)))
  {
    if hits != [] {
      var n := |hits| - 1;
      var h := hits[n];
      var g := Group(hits[..n], getDocument);
      assert Group(hits, getDocument) == AddHit(g, h, getDocument);
      GroupOrder(hits[..n], getDocument);
      GroupKeys(hits[..n], getDocument);
      EntryFound(hits[..n], getDocument, h.docUuid);
      var k := Kept(hits[..n], getDocument);
      if getDocument(h.docUuid).Some? {
        assert Kept(hits, getDocument) == k + [h];
        assert (k + [h])[..|k|] == k;
        var d := DocUuids(k);
        assert DocUuids(k + [h]) == d + [h.docUuid];
        assert (d + [h.docUuid])[..|d|] == d;
        assert h.docUuid in g.entries <==> h.docUuid in g.order;
      } else {
        assert Kept(hits, getDocument) == k;
      }
    }
  }

  /** Every document in doc_map has at least one chunk, and its score is the
      sum of its chunks' scores. */
  lemma {:induction false} GroupEntriesWellFormed(hits: seq<Hit>, getDocument: Uuid -> Option<DocInfo>)
    ensures forall u :: u in Group(hits, getDocument).entries ==>
      Group(hits, getDocument).entries[u].chunks != []
      && ScoreSum(Group(hits, getDocument).entries[u].chunks) == Group(hits, getDocument).entries[u].score
  {
    if hits != [] {
      var n := |hits| - 1;
      var h := hits[n];
      GroupEntriesWellFormed(hits[..n], getDocument);
      var g := Group(hits[..n], getDocument);
      if h.docUuid in g.entries || getDocument(h.docUuid).Some? {
        var e := if h.docUuid in g.entries then g.entries[h.docUuid] else NewEntry(getDocument(h.docUuid).value);
        assert (e.chunks + [HitChunk(h)])[..|e.chunks|] == e.chunks;
      }
    }
  }
}
