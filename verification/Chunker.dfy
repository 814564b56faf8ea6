/**
 TextChunker and RagIndexer.build_chunks: cutting a text into overlapping pieces.
 */
module Chunker {
  import opened Wrappers

  /** Python's s[i:j] for i >= 0: a negative j counts from the end, and an empty range gives "". */
  function Slice(s: string, i: nat, j: int): string {
    var end := if j >= 0 then Min(j, |s|) else Max(|s| + j, 0);
    if i <= end then s[i..end] else ""
  }

  /** The two constructor arguments, kept only if the overlap is smaller than the maximum. */
  datatype TextChunker = TextChunker(maxChars: int, overlapChars: int) {
    predicate Valid() { overlapChars < maxChars }

    /** The chunks from position start to the end of the text. */
    function ChunksFrom(text: string, start: nat): seq<string>
      requires Valid()
      decreases |text| - start
    {
      if start >= |text| then []
      else
        var end := Min(|text|, start + maxChars);
        [Slice(text, start, end)] + if end == |text| then [] else ChunksFrom(text, end - overlapChars)
    }

    lemma NextChunk(text: string, start: nat, end: int, chunks: seq<string>, rest: seq<string>)
      requires Valid() && start < |text| && end == Min(|text|, start + maxChars)
      requires rest == if end == |text| then [] else ChunksFrom(text, end - overlapChars)
      ensures chunks + ChunksFrom(text, start) == chunks + [Slice(text, start, end)] + rest
    {
      Assoc(chunks, [Slice(text, start, end)], rest);
    }

    /** chunk, for any arguments the constructor lets through, negative ones included. */
    method Chunk(text: string) returns (chunks: seq<string>)
      requires Valid()
      ensures chunks == ChunksFrom(text, 0)
    {
      if text == "" { return []; }
      chunks := [];
      var start: int := 0;
      while start < |text|
        invariant 0 <= start
        invariant chunks + ChunksFrom(text, start) == ChunksFrom(text, 0)
      {
        var end := Min(|text|, start + maxChars);
        ghost var rest := if end == |text| then [] else ChunksFrom(text, end - overlapChars);
        NextChunk(text, start, end, chunks, rest);
        chunks := chunks + [Slice(text, start, end)];
        if end == |text| { return; }
        start := end - overlapChars;
      }
    }
  }

  /** The constructor's check; None is its ValueError. Every smaller overlap is accepted. */
  function MakeChunker(maxChars: int, overlapChars: int): (r: Option<TextChunker>)
    ensures r.Some? <==> overlapChars < maxChars
    ensures r.Some? ==> r.value.Valid() && r.value.maxChars == maxChars && r.value.overlapChars == overlapChars
  {
    if overlapChars >= maxChars then None else Some(TextChunker(maxChars, overlapChars))
  }

  // -------------------------------------------------------------------- lengths

  /** Every chunk but the last has the maximum length, and the last is not only overlap. */
  lemma {:induction false} Lengths(c: TextChunker, text: string, start: nat)
    requires 0 <= c.overlapChars < c.maxChars && start < |text|
    ensures var chunks := c.ChunksFrom(text, start);
            && 0 < |chunks|
            && (forall k :: 0 <= k < |chunks| - 1 ==> |chunks[k]| == c.maxChars)
            && 0 < |chunks[|chunks| - 1]| <= c.maxChars
            && if |chunks| == 1 then chunks[0] == text[start..] else c.overlapChars < |chunks[|chunks| - 1]|
    decreases |text| - start
  {
    var end := Min(|text|, start + c.maxChars);
    if end < |text| {
      Lengths(c, text, end - c.overlapChars);
    }
  }

  lemma Unfold(c: TextChunker, text: string, start: nat)
    requires 0 <= c.overlapChars < c.maxChars && start < |text|
    ensures var end := start + c.maxChars;
            if end >= |text| then c.ChunksFrom(text, start) == [text[start..]]
            else c.ChunksFrom(text, start) == [text[start..end]] + c.ChunksFrom(text, end - c.overlapChars)
  {
    assert text[start..|text|] == text[start..];
  }

  // ----------------------------------------------------------------- round trip

  predicate AtLeastLong(chunks: seq<string>, overlap: nat) {
    forall k :: 0 <= k < |chunks| ==> overlap <= |chunks[k]|
  }

  /** The chunks after the first, each without the characters it repeats. */
  function Tails(chunks: seq<string>, overlap: nat): string
    requires AtLeastLong(chunks, overlap)
  {
    if chunks == [] then "" else chunks[0][overlap..] + Tails(chunks[1..], overlap)
  }

  lemma TailsCons(first: string, rest: seq<string>, overlap: nat)
    requires overlap <= |first| && AtLeastLong(rest, overlap)
    ensures AtLeastLong([first] + rest, overlap)
    ensures Tails([first] + rest, overlap) == first[overlap..] + Tails(rest, overlap)
  {
    ConsAppend([first], rest);
    assert [first][1..] + rest == rest;
  }

  lemma Resume(text: string, i: nat, j: nat, overlap: nat)
    requires i + overlap <= j <= |text|
    ensures text[i..j][overlap..] + text[j..] == text[i + overlap..]
  {
  }

  /** One chunk, in front of chunks that go on with the text from its end. */
  lemma TailsStep(text: string, start: nat, end: nat, chunks: seq<string>, rest: seq<string>, overlap: nat)
    requires start + overlap <= end <= |text| && chunks == [text[start..end]] + rest
    requires AtLeastLong(rest, overlap) && Tails(rest, overlap) == text[end..]
    ensures AtLeastLong(chunks, overlap) && Tails(chunks, overlap) == text[start + overlap..]
  {
    TailsCons(text[start..end], rest, overlap);
    Resume(text, start, end, overlap);
  }

  /** Chunks that all start with text the one before them ends with. */
  lemma {:induction false} TailsRebuild(c: TextChunker, text: string, start: nat)
    requires 0 <= c.overlapChars < c.maxChars && start + c.overlapChars < |text|
    ensures AtLeastLong(c.ChunksFrom(text, start), c.overlapChars)
    ensures Tails(c.ChunksFrom(text, start), c.overlapChars) == text[start + c.overlapChars..]
    decreases |text| - start
  {
    var chunks, end := c.ChunksFrom(text, start), start + c.maxChars;
    Unfold(c, text, start);
    if end < |text| {
      TailsRebuild(c, text, end - c.overlapChars);
      TailsStep(text, start, end, chunks, c.ChunksFrom(text, end - c.overlapChars), c.overlapChars);
    } else {
      assert chunks == [text[start..|text|]] + [] && text[|text|..] == "";
      TailsStep(text, start, |text|, chunks, [], c.overlapChars);
    }
  }

  /** The first chunk, then every other without its first overlap characters, is the text. */
  lemma RoundTrip(c: TextChunker, text: string)
    requires 0 <= c.overlapChars < c.maxChars && text != ""
    ensures var chunks := c.ChunksFrom(text, 0);
            && chunks != [] && AtLeastLong(chunks[1..], c.overlapChars)
            && chunks[0] + Tails(chunks[1..], c.overlapChars) == text
  {
    var chunks := c.ChunksFrom(text, 0);
    Unfold(c, text, 0);
    if c.maxChars < |text| {
      var next := c.maxChars - c.overlapChars;
      Uncons(chunks, text[..c.maxChars], c.ChunksFrom(text, next));
      TailsRebuild(c, text, next);
    } else {
      Uncons(chunks, text, []);
    }
  }

  predicate Shares(c: TextChunker, left: string, right: string)
    requires c.Valid()
  {
    |left| == c.maxChars && 0 <= c.overlapChars < |right|
      && left[c.maxChars - c.overlapChars..] == right[..c.overlapChars]
  }

  lemma FirstShares(c: TextChunker, text: string, start: nat)
    requires 0 <= c.overlapChars < c.maxChars && start + c.maxChars < |text|
    ensures var next := c.ChunksFrom(text, start + c.maxChars - c.overlapChars);
            next != [] && Shares(c, text[start..start + c.maxChars], next[0])
  {
    Unfold(c, text, start + c.maxChars - c.overlapChars);
  }

  /** Neighbouring chunks share exactly the overlap. */
  lemma {:induction false} NeighboursOverlap(c: TextChunker, text: string, start: nat, k: nat)
    requires 0 <= c.overlapChars < c.maxChars
    requires k + 1 < |c.ChunksFrom(text, start)|
    ensures Shares(c, c.ChunksFrom(text, start)[k], c.ChunksFrom(text, start)[k + 1])
    decreases k
  {
    assert start < |text|;
    Unfold(c, text, start);
    if k == 0 {
      FirstShares(c, text, start);
    } else {
      NeighboursOverlap(c, text, start + c.maxChars - c.overlapChars, k - 1);
    }
  }

  // ---------------------------------------------------------------------- count

  function CeilDiv(a: nat, b: nat): nat
    requires b > 0
  {
    (a + b - 1) / b
  }

  /** How many chunks n characters give. */
  function ChunkCount(c: TextChunker, n: nat): nat
    requires c.Valid()
  {
    if n == 0 then 0
    else if n <= c.maxChars then 1
    else 1 + CeilDiv(n - c.maxChars, c.maxChars - c.overlapChars)
  }

  lemma DivideOnce(a: nat, b: nat)
    requires b > 0 && a >= b
    ensures a / b == 1 + (a - b) / b
  {
    var q, r := (a - b) / b, (a - b) % b;
    assert (q + 1) * b == q * b + b;
    QuotientIs(a, b, q + 1, r);
  }

  lemma QuotientIs(a: nat, b: nat, q: int, r: nat)
    requires b > 0 && a == q * b + r && r < b
    ensures a / b == q
  {
    var q', r' := a / b, a % b;
    assert (q - q') * b == q * b - q' * b == r' - r;
    if q > q' {
      AtLeast(q - q', b);
    } else if q < q' {
      AtLeast(q' - q, b);
    }
  }

  lemma AtLeast(d: int, b: nat)
    requires d >= 1
    ensures d * b >= b
  {
    assert d * b == (d - 1) * b + b;
  }

  lemma CeilDivSteps(a: nat, b: nat)
    requires b > 0 && a > 0
    ensures CeilDiv(a, b) == if a <= b then 1 else 1 + CeilDiv(a - b, b)
  {
    DivideOnce(a + b - 1, b);
    if a <= b {
      assert (a - 1) / b == 0;
    }
  }

  lemma {:induction false} Count(c: TextChunker, text: string, start: nat)
    requires 0 <= c.overlapChars < c.maxChars && start <= |text|
    ensures |c.ChunksFrom(text, start)| == ChunkCount(c, |text| - start)
    decreases |text| - start
  {
    var end := Min(|text|, start + c.maxChars);
    if start < |text| && end < |text| {
      var step := c.maxChars - c.overlapChars;
      Count(c, text, end - c.overlapChars);
      CeilDivSteps(|text| - start - c.maxChars, step);
    }
  }

  // -------------------------------------------------------------------- indexing

  datatype KnowledgeDocument = KnowledgeDocument(sourceType: string, sourceId: string, title: string,
                                                 content: string, metadata: map<string, string>)

  datatype ChunkRecord = ChunkRecord(sourceId: string, chunkIndex: int, content: string, metadata: map<string, string>)

  /** enumerate, as a list of records. */
  function BuildChunks(c: TextChunker, document: KnowledgeDocument): (records: seq<ChunkRecord>)
    requires c.Valid()
    ensures var chunks := c.ChunksFrom(document.content, 0);
            && |records| == |chunks|
            && forall k :: 0 <= k < |records| ==>
                 records[k] == ChunkRecord(document.sourceId, k, chunks[k], document.metadata)
  {
    var chunks := c.ChunksFrom(document.content, 0);
    seq(|chunks|, k requires 0 <= k < |chunks| => ChunkRecord(document.sourceId, k, chunks[k], document.metadata))
  }

  /** The records of a document hold its whole content: two documents with the same records have the same content. */
  lemma RecordsDetermineContent(c: TextChunker, a: KnowledgeDocument, b: KnowledgeDocument)
    requires 0 <= c.overlapChars < c.maxChars && BuildChunks(c, a) == BuildChunks(c, b)
    ensures a.content == b.content
  {
    var chunksA, chunksB := c.ChunksFrom(a.content, 0), c.ChunksFrom(b.content, 0);
    assert |chunksA| == |BuildChunks(c, a)| == |chunksB|;
    forall k | 0 <= k < |chunksA|
      ensures chunksA[k] == chunksB[k]
    {
      assert BuildChunks(c, a)[k].content == BuildChunks(c, b)[k].content;
    }
    assert chunksA == chunksB;
    if chunksA != [] {
      RoundTrip(c, a.content);
      RoundTrip(c, b.content);
    }
  }
}
