/** combine_context: the flat text handed to the generator, rendered from the
    sorted context documents. Score formatting (`:.2f`) and the rendering of
    the metadata bag are parameters of the model. */
module Context {

  import opened RetrieverTypes

  function DigitChar(d: int): char
    requires 0 <= d < 10
  {
    "0123456789"[d]
  }

  /** Decimal digits of a natural number, as str() writes them. */
  function NatToString(n: nat): string
    decreases n
  {
    if n < 10 then [DigitChar(n)] else NatToString(n / 10) + [DigitChar(n % 10)]
  }

  /** str() of an integer. */
  function IntToString(i: int): string {
    if i < 0 then "-" + NatToString(-i) else NatToString(i)
  }

  function DigitValue(c: char): int {
    c as int - '0' as int
  }

  /** The reading of a decimal numeral, used to state what IntToString writes. */
  function ParseNat(s: string): int {
    if s == [] then 0 else ParseNat(s[..|s| - 1]) * 10 + DigitValue(s[|s| - 1])
  }

  function ParseInt(s: string): int {
    if |s| > 0 && s[0] == '-' then -ParseNat(s[1..]) else ParseNat(s)
  }

  lemma DigitRoundTrip(d: int)
    requires 0 <= d < 10
    ensures DigitValue(DigitChar(d)) == d
    ensures '0' <= DigitChar(d) <= '9'
  {
    if d == 0 {} else if d == 1 {} else if d == 2 {} else if d == 3 {} else if d == 4 {}
    else if d == 5 {} else if d == 6 {} else if d == 7 {} else if d == 8 {} else {}
  }

  lemma {:induction false} NatToStringRoundTrip(n: nat)
    ensures ParseNat(NatToString(n)) == n
    ensures NatToString(n) != [] && forall c :: c in NatToString(n) ==> '0' <= c <= '9'
    decreases n
  {
    if n < 10 {
      DigitRoundTrip(n);
      assert NatToString(n)[..0] == [];
    } else {
      var s := NatToString(n / 10);
      NatToStringRoundTrip(n / 10);
      DigitRoundTrip(n % 10);
      assert (s + [DigitChar(n % 10)])[..|s|] == s;
    }
  }

  lemma NegativeRoundTrip(n: nat)
    requires n > 0
    ensures ParseInt("-" + NatToString(n)) == -(n as int)
  {
    var s := NatToString(n);
    NatToStringRoundTrip(n);
    var t := "-" + s;
    assert |t| > 0 && t[0] == '-';
    assert t[1..] == s;
  }

  lemma NonNegativeRoundTrip(n: nat)
    ensures ParseInt(NatToString(n)) == n
  {
    var s := NatToString(n);
    NatToStringRoundTrip(n);
    assert s[0] in s;
  }

  /** The number written in a "Chunk: " line reads back as the value written. */
  lemma IntToStringRoundTrip(i: int)
    ensures ParseInt(IntToString(i)) == i
  {
    if i < 0 {
      var n: nat := -i;
      assert IntToString(i) == "-" + NatToString(n);
      NegativeRoundTrip(n);
    } else {
      var n: nat := i;
      assert IntToString(i) == NatToString(n);
      NonNegativeRoundTrip(n);
    }
  }

  /** The single-line pieces combine_context appends, one f-string each. */
  function TitleLine(d: ContextDocument): string { "Document Title: " + d.title + "\n" }
  function MetadataLine(d: ContextDocument, showMetadata: Metadata -> string): string {
    "Document Metadata: " + showMetadata(d.metadata) + "\n"
  }
  function ChunkLine(c: Chunk): string { "Chunk: " + IntToString(c.chunkId + 1) + "\n" }
  function RelevancyLine(c: Chunk, formatScore: real -> string): string {
    "High Relevancy: " + formatScore(c.score) + "\n"
  }
  function ContentLine(c: Chunk): string { c.content + "\n" }

  /** The lines rendered for one chunk: its 1-based number, a relevancy line
      only for a positive score, then its content. */
  function ChunkText(c: Chunk, formatScore: real -> string): string {
    ChunkLine(c) + (if c.score > 0.0 then RelevancyLine(c, formatScore) else "") + ContentLine(c)
  }

  /** The concatenation of the texts f renders for the elements of xs, in order. */
  function Join<T>(xs: seq<T>, f: T -> string): string {
    if xs == [] then "" else Join(xs[..|xs| - 1], f) + f(xs[|xs| - 1])
  }

  /** Rendering a concatenated list renders each part on its own. */
  lemma {:induction false} JoinConcat<T>(a: seq<T>, b: seq<T>, f: T -> string)
    ensures Join(a + b, f) == Join(a, f) + Join(b, f)
    decreases |b|
  {
    if b == [] {
      assert a + b == a;
    } else {
      var n := |b| - 1;
      var ab := a + b;
      JoinConcat(a, b[..n], f);
      assert ab[..|ab| - 1] == a + b[..n];
      assert ab[|ab| - 1] == b[n];
      assert Join(ab, f) == (Join(a, f) + Join(b[..n], f)) + f(b[n]);
      assert Join(b, f) == Join(b[..n], f) + f(b[n]);
      AppendAssoc(Join(a, f), Join(b[..n], f), f(b[n]));
    }
  }

  function ChunksText(cs: seq<Chunk>, formatScore: real -> string): string {
    Join(cs, c => ChunkText(c, formatScore))
  }

  /** The title line, and a metadata line only when the metadata is non-empty. */
  function DocumentHeader(d: ContextDocument, showMetadata: Metadata -> string): string {
    TitleLine(d) + (if |d.metadata| > 0 then MetadataLine(d, showMetadata) else "")
  }

  function DocumentText(d: ContextDocument, formatScore: real -> string, showMetadata: Metadata -> string): string {
    DocumentHeader(d, showMetadata) + ChunksText(d.chunks, formatScore) + "\n\n"
  }

  /** The text combine_context returns: the documents' texts in list order. */
  function ContextText(docs: seq<ContextDocument>, formatScore: real -> string, showMetadata: Metadata -> string): string {
    Join(docs, d => DocumentText(d, formatScore, showMetadata))
  }

  /** The context of a concatenation of document lists is the concatenation
      of their contexts: each document is rendered on its own. */
  lemma ContextTextConcat(a: seq<ContextDocument>, b: seq<ContextDocument>,
                          formatScore: real -> string, showMetadata: Metadata -> string)
    ensures ContextText(a + b, formatScore, showMetadata) == ContextText(a, formatScore, showMetadata) + ContextText(b, formatScore, showMetadata)
  {
    JoinConcat(a, b, d => DocumentText(d, formatScore, showMetadata));
  }

  /** Every document's text opens with its title line and closes with the
      blank-line separator. */
  lemma DocumentTextShape(d: ContextDocument, formatScore: real -> string, showMetadata: Metadata -> string)
    ensures var t := DocumentText(d, formatScore, showMetadata);
      var title := "Document Title: " + d.title + "\n";
      |title| + 2 <= |t| && t[..|title|] == title && t[|t| - 2..] == "\n\n"
  {
  }

  /** Appending a chunk's lines one after another appends its text. */
  lemma ChunkAppend(mark: string, c: Chunk, formatScore: real -> string)
    ensures ((mark + ChunkLine(c)) + (if c.score > 0.0 then RelevancyLine(c, formatScore) else "")) + ContentLine(c)
      == mark + ChunkText(c, formatScore)
  {
  }

  /** Appending the header, the chunk texts and the separator appends the document's text. */
  lemma DocumentAppend(before: string, d: ContextDocument, formatScore: real -> string, showMetadata: Metadata -> string)
    ensures ((before + DocumentHeader(d, showMetadata)) + ChunksText(d.chunks, formatScore)) + "\n\n"
      == before + DocumentText(d, formatScore, showMetadata)
  {
  }

  lemma AppendAssoc(a: string, b: string, c: string)
    ensures (a + b) + c == a + (b + c)
  {
  }

  lemma ChunksTextStep(cs: seq<Chunk>, j: nat, formatScore: real -> string)
    requires j < |cs|
    ensures ChunksText(cs[..j + 1], formatScore) == ChunksText(cs[..j], formatScore) + ChunkText(cs[j], formatScore)
  {
    assert cs[..j + 1][..j] == cs[..j];
  }

  lemma ContextTextStep(docs: seq<ContextDocument>, i: nat, formatScore: real -> string, showMetadata: Metadata -> string)
    requires i < |docs|
    ensures ContextText(docs[..i + 1], formatScore, showMetadata)
      == ContextText(docs[..i], formatScore, showMetadata) + DocumentText(docs[i], formatScore, showMetadata)
  {
    assert docs[..i + 1][..i] == docs[..i];
  }

  /** One pass of the inner loop of combine_context (lines 207-210): the
      chunk number, a relevancy line for a positive score, the content. */
  method AppendChunk(context: string, chunk: Chunk, formatScore: real -> string) returns (result: string)
    ensures result == context + ChunkText(chunk, formatScore)
  {
    result := context + ChunkLine(chunk);
    if chunk.score > 0.0 {
      result := result + RelevancyLine(chunk, formatScore);
    }
    result := result + ContentLine(chunk);
    ChunkAppend(context, chunk, formatScore);
  }

  /** The inner loop of combine_context (lines 206-210): append the lines of
      each chunk of one document to the accumulator. */
  method AppendChunks(context: string, chunks: seq<Chunk>, formatScore: real -> string)
    returns (result: string)
    ensures result == context + ChunksText(chunks, formatScore)
  {
    result := context;
    var j := 0;
    while j < |chunks|
      invariant 0 <= j <= |chunks|
      invariant result == context + ChunksText(chunks[..j], formatScore)
    {
      result := AppendChunk(result, chunks[j], formatScore);
      ChunksTextStep(chunks, j, formatScore);
      AppendAssoc(context, ChunksText(chunks[..j], formatScore), ChunkText(chunks[j], formatScore));
      j := j + 1;
    }
    assert chunks[..j] == chunks;
  }

  /** One pass of the outer loop of combine_context (lines 203-211): append
      the title line, the metadata line when there is metadata, the chunks
      and the separator. */
  method AppendDocument(context: string, document: ContextDocument, formatScore: real -> string, showMetadata: Metadata -> string)
    returns (result: string)
    ensures result == context + DocumentText(document, formatScore, showMetadata)
  {
    result := context + TitleLine(document);
    if |document.metadata| > 0 {
      result := result + MetadataLine(document, showMetadata);
      AppendAssoc(context, TitleLine(document), MetadataLine(document, showMetadata));
    } else {
      assert DocumentHeader(document, showMetadata) == TitleLine(document);
    }
    assert result == context + DocumentHeader(document, showMetadata);
    result := AppendChunks(result, document.chunks, formatScore);
    result := result + "\n\n";
    DocumentAppend(context, document, formatScore, showMetadata);
  }

  /** combine_context (lines 199-213): a string accumulator over the
      documents; the body of the loop is AppendDocument. */
  method CombineContext(documents: seq<ContextDocument>, formatScore: real -> string, showMetadata: Metadata -> string)
    returns (context: string)
    ensures context == ContextText(documents, formatScore, showMetadata)
  {
    context := "";
    var i := 0;
    while i < |documents|
      invariant 0 <= i <= |documents|
      invariant context == ContextText(documents[..i], formatScore, showMetadata)
    {
      context := AppendDocument(context, documents[i], formatScore, showMetadata);
      ContextTextStep(documents, i, formatScore, showMetadata);
      i := i + 1;
    }
    assert documents[..i] == documents;
  }
}
