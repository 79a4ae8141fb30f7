# Window retriever — a Dafny model

This project models the retrieval step of the RAG backend: the window
retriever's `retrieve` and its helpers `normalize_value`,
`generate_window_list` and `combine_context`. One call runs these steps:

1. clamp the chunk window to [0,10] and the threshold to [0,100], then scale the threshold to [0,1];
2. run a hybrid search in the vector store;
3. group the hits by document, summing each document's raw scores;
4. min-max normalise every hit's score against the score list;
5. for every chunk whose normalised score meets the threshold, ask the store in one batch per document for the neighbouring chunk ids;
6. append the neighbours that are new, as score-0 context chunks;
7. return two views of the documents, each sorted by descending score with chunks in chunk-id order, and the context text rendered from the second view.

The modules follow the program's structure:

- `RetrieverTypes` (types.dfy) holds the hits, the doc_map entries, the two output views and the store gateway. The gateway is a value with three read-only lookups: `hybridChunks`, `getDocument` and `getChunkByIds`. It also holds the outcome of a call.
- `RetrievalConfig` (config.dfy) holds the clamping of the window and the threshold.
- `Scores` (scores.dfy) holds the score sums, `min`/`max` and `normalize_value`.
- `Sorting` (sorting.dfy) holds Python's stable `sorted` as a stable insertion sort on a real key. `reverse=True` is the ascending sort on the negated key, because both keep equal elements in input order.
- `Window` (window.dfy) holds `generate_window_list`, the collection of window ids (a loop), the merge of fetched chunks (a loop) and the expansion of one document.
- `Grouping` (grouping.dfy) holds the first loop, which builds doc_map and the score list. The dict's insertion order is kept as an explicit `order` sequence.
- `Context` (context.dfy) holds `combine_context` (a loop), `str()` of an integer and the text layout.
- `WindowRetriever` (retriever.dfy) holds `retrieve` as a method, and `RetrieveSpec`, the function of the search hits that the method is proved to compute.
- `RetrieverProperties` (properties.dfy) holds properties of a whole call, stated over `RetrieveSpec`.

The awaited store calls become plain calls of the gateway's functions.
How a score is printed with `:.2f`, and how the metadata dict is printed,
are parameters of the model (`formatScore`, `showMetadata`).

Behaviours of the code that the model keeps as written:

- The score list is seeded with `0` (line 80). As a result, `min ≤ 0 ≤ max`, and a kept hit normalises to 0 exactly when it scores `min(0, lowest kept score)`. With no negative score, that means exactly when it scores 0, so a document's lowest hit normalises above 0 when it scores above 0 (`Scores.LowestNormalisesToZero`). `TwoChunkScenario` and `TwoHitRetrieval` work this through on concrete numbers.
- Equal bounds are not special-cased. When doc_map is non-empty and `max == min` (every kept score is 0), the first `normalize_value` call divides by zero. The model returns `ZeroDivision` for that case.
- There is no tie-break on the document id. Documents with equal scores keep their doc_map insertion order, because `sorted` is stable.
- Only "Hybrid Search" runs a search. Under any other mode `chunks` is read unassigned, and the model returns `UnboundChunks`.

## Model

| member | source | states |
|---|---|---|
| RetrievalConfig.ClampWindow | backend/components/retriever/WindowRetriever.py:64 | the window lies in [0,10]; an in-range value is kept; below 0 gives 0; above 10 gives 10 |
| RetrievalConfig.ClampThreshold | backend/components/retriever/WindowRetriever.py:65-66 | the threshold lies in [0,1]; an in-range percentage t gives t/100; out-of-range values clamp to 0 or 1 |
| Scores.MinOf | backend/components/retriever/WindowRetriever.py:102 | the result is an element of the list and no element is smaller |
| Scores.MaxOf | backend/components/retriever/WindowRetriever.py:103 | the result is an element of the list and no element is larger |
| Scores.Normalize | backend/components/retriever/WindowRetriever.py:105-106 | with distinct bounds: in [0,1] for a value between the bounds; 1 at the maximum and 0 at the minimum; negative exactly below the minimum and above 1 exactly above the maximum |
| Scores.SeededBounds | backend/components/retriever/WindowRetriever.py:80-103 | the bounds of the 0-seeded score list straddle 0 and enclose every kept score |
| Scores.DegenerateIffAllZero | backend/components/retriever/WindowRetriever.py:80-106 | the bounds of the seeded list coincide exactly when every kept score is 0 |
| Scores.LowestNormalisesToZero | backend/components/retriever/WindowRetriever.py:80-106 | a kept score normalises to 0 exactly when it equals the lower bound; with no negative kept score the lower bound is 0, so a hit normalises to 0 exactly when it scores 0 |
| Scores.NormalizedKeptScores | backend/components/retriever/WindowRetriever.py:102-123 | every kept score normalises into [0,1]; a score equal to the maximum meets any threshold in [0,1] |
| Window.RangeWithout | backend/components/retriever/WindowRetriever.py:111 | the comprehension holds exactly the integers of the range other than the excluded one, strictly ascending, with the matching length |
| Window.WindowList | backend/components/retriever/WindowRetriever.py:108-111 | x is listed iff x differs from the value and lies within the window of it; the list ascends strictly and has 2·window entries (none for a negative window) |
| Window.AdditionalIdsMembers | backend/components/retriever/WindowRetriever.py:119-128 | an id is requested iff it lies within the window of some chunk whose normalised score meets the threshold and is not that chunk's own id |
| Window.AdditionalIdsSource | backend/components/retriever/WindowRetriever.py:119-127 | every requested id lies within the window of a chunk, at the position returned, that meets the threshold, and differs from that chunk's id |
| Window.AdditionalIdsCover | backend/components/retriever/WindowRetriever.py:119-127 | every window id of a chunk that meets the threshold is requested |
| Window.NothingRequested | backend/components/retriever/WindowRetriever.py:123-130 | with window 0, or with no chunk meeting the threshold, no id is requested (so no fetch happens) |
| Window.CollectWindowIds | backend/components/retriever/WindowRetriever.py:117-127 | the loop builds the list of requested ids, with the membership characterisation above |
| Window.MergePrefix | backend/components/retriever/WindowRetriever.py:137-147 | the merge only appends: the chunks already present stay in place |
| Window.MergeIds | backend/components/retriever/WindowRetriever.py:134-147 | after the merge the id set is the old ids plus the fetched ids |
| Window.MergeAppended | backend/components/retriever/WindowRetriever.py:138-146 | each appended chunk is a score-0 copy of a fetched chunk, at the position returned, whose id was not present |
| Window.MergeAppendedDistinct | backend/components/retriever/WindowRetriever.py:138-147 | no two appended chunks share an id |
| Window.MergeFacts | backend/components/retriever/WindowRetriever.py:134-147 | the existing chunks stay in place and unchanged; each appended chunk has score 0, an id not present before, and is a fetched chunk; no two appended chunks share an id; the final id set is the old ids plus the fetched ids |
| Window.MergeNothingNew | backend/components/retriever/WindowRetriever.py:137-147 | when every fetched id is already present, the merge changes nothing |
| Window.MergeIdempotent | backend/components/retriever/WindowRetriever.py:134-147 | merging the same fetched chunks a second time changes nothing |
| Window.MergeKeepsScoreSum | backend/components/retriever/WindowRetriever.py:139-147 | the sum of chunk scores is unchanged by the merge |
| Window.MergeFetched | backend/components/retriever/WindowRetriever.py:134-147 | the loop with its `existing_chunk_ids` set computes Merge |
| Window.ExpandDocument | backend/components/retriever/WindowRetriever.py:116-147 | the expanded entry is Expand's; the fetch is made iff the requested id set is non-empty, and then with exactly that set; title, score and metadata are unchanged; the original chunks stay a prefix |
| Window.ExpandFacts | backend/components/retriever/WindowRetriever.py:116-147 | expansion keeps the document score and the chunk-score sum, and keeps chunk ids distinct when they were distinct |
| Grouping.GroupHits | backend/components/retriever/WindowRetriever.py:79-101 | the loop computes Group: doc_map, its insertion order and the score list |
| Grouping.GroupScores | backend/components/retriever/WindowRetriever.py:80-101 | the score list is 0 followed by the scores of the kept hits |
| Grouping.GroupEntry | backend/components/retriever/WindowRetriever.py:81-100 | a document is in doc_map iff the store knows it and it has a hit; its title and metadata are the store's, its chunks are its hits in order, and its score is the sum of its hits' scores |
| Grouping.GroupKeys | backend/components/retriever/WindowRetriever.py:81-91 | the insertion order lists exactly the keys of doc_map, each once |
| Grouping.GroupOrder | backend/components/retriever/WindowRetriever.py:81-91 | the insertion order is the documents of the kept hits in first-sighting order |
| Grouping.GroupEntriesWellFormed | backend/components/retriever/WindowRetriever.py:86-100 | every entry has at least one chunk and its score is the sum of its chunks' scores |
| Sorting.SortSorted | backend/components/retriever/WindowRetriever.py:168-169 | the sort's output is ascending in the key |
| Sorting.SortPermutation | backend/components/retriever/WindowRetriever.py:191-194 | the sort's output is a permutation of its input |
| Sorting.SortStable | backend/components/retriever/WindowRetriever.py:191-194 | elements with equal keys keep their input order |
| Sorting.SortUnique | backend/components/retriever/WindowRetriever.py:191-194 | any arrangement sorted by the key and stable is the sort's output |
| Sorting.SortMap | backend/components/retriever/WindowRetriever.py:149-169 | sorting commutes with a projection that keeps the key |
| Context.IntToStringRoundTrip | backend/components/retriever/WindowRetriever.py:207 | the number written on a "Chunk:" line reads back as the integer written |
| Context.ContextTextConcat | backend/components/retriever/WindowRetriever.py:199-213 | the context of two concatenated document lists is the two contexts concatenated |
| Context.DocumentTextShape | backend/components/retriever/WindowRetriever.py:202-211 | each document's text starts with its title line and ends with a blank-line separator |
| Context.AppendChunk | backend/components/retriever/WindowRetriever.py:207-210 | one chunk appends its 1-based number line, a relevancy line only for a positive score, and its content line |
| Context.AppendDocument | backend/components/retriever/WindowRetriever.py:203-211 | one document appends its title line, a metadata line only for non-empty metadata, its chunks and the blank-line separator |
| Context.AppendChunks | backend/components/retriever/WindowRetriever.py:206-210 | the inner loop appends the text of every chunk, in order |
| Context.CombineContext | backend/components/retriever/WindowRetriever.py:199-213 | the loop computes ContextText: the texts of the documents in list order |
| WindowRetriever.ExpandAll | backend/components/retriever/WindowRetriever.py:116-189 | given that every entry holds a chunk, as the grouping guarantees, the division by zero happens exactly when doc_map is non-empty and the bounds coincide; otherwise both views are built, one document after another in insertion order |
| WindowRetriever.Retrieve | backend/components/retriever/WindowRetriever.py:47-197 | without a hybrid search the outcome is UnboundChunks; otherwise the outcome is RetrieveSpec of the store's hits |
| RetrieverProperties.EmptySearchIff | backend/components/retriever/WindowRetriever.py:75-76 | the "couldn't find any chunks" result is returned exactly when the search has no hits |
| RetrieverProperties.AllHitsDropped | backend/components/retriever/WindowRetriever.py:81-85 | hits whose documents the store does not know are dropped; if all are, the result is no documents and an empty context |
| RetrieverProperties.ZeroDivisionIff | backend/components/retriever/WindowRetriever.py:80-122 | the call divides by zero exactly when some hit was kept and every kept hit scores 0 |
| RetrieverProperties.UnsortedViews | backend/components/retriever/WindowRetriever.py:149-189 | each document-view entry is its context-view entry without chunk contents |
| RetrieverProperties.ViewsAgree | backend/components/retriever/WindowRetriever.py:149-196 | the returned documents are the sorted context documents without contents, and the context is rendered from exactly that list |
| RetrieverProperties.UnsortedUuids | backend/components/retriever/WindowRetriever.py:116-179 | before sorting, the documents follow doc_map's insertion order |
| RetrieverProperties.Ranking | backend/components/retriever/WindowRetriever.py:191-194 | the documents descend by score; equal scores keep first-sighting order; the documents are a permutation of the unsorted ones |
| RetrieverProperties.ChunksAscending | backend/components/retriever/WindowRetriever.py:168-169 | inside every returned document the chunks ascend by chunk id |
| RetrieverProperties.DocumentScores | backend/components/retriever/WindowRetriever.py:86-179 | a returned document is known to the store and carries its title and metadata; its score is the sum of its hits' raw scores, whatever the expansion appended |
| RetrieverProperties.DocumentsReturned | backend/components/retriever/WindowRetriever.py:81-179 | exactly the known documents with at least one hit are returned, each once |
| RetrieverProperties.TwoChunkScenario | backend/components/retriever/WindowRetriever.py:80-128 | hits scoring 90 (chunk 0) and 10 (chunk 2) with window 1 and threshold 80: bounds 0 and 90, normalised scores 1 and 1/9, neighbours -1 and 1 requested |
| RetrieverProperties.TwoHitRetrieval | backend/components/retriever/WindowRetriever.py:47-197 | end to end, two hits of one known document (chunk 0 scoring 90, chunk 2 scoring 10), window 1, threshold 80, and a store that returns chunk 1 for {-1, 1}: one document with chunks 0, 1, 2 in that order, the fetched chunk scoring 0, document score 100 |

## Left out

- The async I/O is not modelled. The store calls are total functions of their arguments, so the store performs no failures, timeouts or concurrency.
- The embedder is not modelled: it is only copied into every output chunk as the `"embedder"` field. That field is not part of `ChunkRef` or `Chunk`.
- The configuration plumbing (the `InputConfig` declarations and defaults, lines 11-45) is not modelled. The model takes the already-converted integers; `int()` of a malformed string is not modelled.
- The `chunks_above_threshold` counter (lines 118 and 124) is never read, so it is not modelled.
- Scores are exact reals: floating-point rounding in the sums, the normalisation and the threshold test is not modelled.
- `:.2f` formatting of a score and Python's printing of the metadata dict are not modelled: they are the parameters `formatScore` and `showMetadata`.
- `str()` of the uuids is the identity: uuids are already strings in the model.
- Context.CombineContext keeps the two nested loops of combine_context, but as separate methods. The outer loop body is `AppendDocument`, the inner loop is `AppendChunks`, and its body is `AppendChunk`. The appends are the same, in the same order; only the nesting is refactored.
- WindowRetriever.Retrieve runs the loop over doc_map in the method `ExpandAll`. ExpandAll reports the division by zero as a flag at the first document that holds a chunk, which is the first document, and Retrieve turns the flag into the `ZeroDivision` outcome.
- RetrieverProperties.ChunksAscending states non-strict order only. Two hits of one document with the same chunk id both stay in its chunk list, so strict order holds only when the search returns distinct chunk ids per document.
