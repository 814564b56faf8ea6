/**
 PgVectorRepository.search and Reranker.by_relevance: scoring every stored chunk and
 returning the best of them. Python's sort with reverse=True keeps equal elements in
 their original order; the order it gives is described by positions.
 */
module Ranking {
  import opened Wrappers
  import opened Vectors
  import opened Embedder

  // ------------------------------------------------- the stable descending order

  /** Position i comes before position j: a higher score, or the same score and an earlier row. */
  predicate Before(scores: seq<real>, i: nat, j: nat)
    requires i < |scores| && j < |scores|
  {
    scores[i] > scores[j] || (scores[i] == scores[j] && i < j)
  }

  predicate InRange(n: nat, order: seq<nat>) {
    forall k :: 0 <= k < |order| ==> order[k] < n
  }

  predicate Ascending(scores: seq<real>, order: seq<nat>)
    requires InRange(|scores|, order)
  {
    forall k, l :: 0 <= k < l < |order| ==> Before(scores, order[k], order[l])
  }

  function Positions(n: nat): (p: seq<nat>)
    ensures |p| == n && forall k :: 0 <= k < n ==> p[k] == k
  {
    seq(n, k => k)
  }

  /** The positions of the scores, each once, in stable descending order. */
  ghost predicate IsStableDescending(scores: seq<real>, order: seq<nat>) {
    InRange(|scores|, order) && multiset(order) == multiset(Positions(|scores|)) && Ascending(scores, order)
  }

  /** Puts position i, later than all in the order, behind the last score not below its own. */
  function Insert(scores: seq<real>, order: seq<nat>, i: nat): (r: seq<nat>)
    requires InRange(|scores|, order) && i < |scores|
    ensures InRange(|scores|, r) && |r| == |order| + 1
  {
    if order == [] then [i]
    else if scores[order[|order| - 1]] >= scores[i] then order + [i]
    else Insert(scores, order[..|order| - 1], i) + [order[|order| - 1]]
  }

  function Ranked(scores: seq<real>, n: nat := |scores|): (order: seq<nat>)
    requires n <= |scores|
    ensures InRange(|scores|, order) && |order| == n
  {
    if n == 0 then [] else Insert(scores, Ranked(scores, n - 1), n - 1)
  }

  lemma PositionsSnoc(n: nat)
    ensures Positions(n) + [n] == Positions(n + 1)
  {
  }

  lemma BagSnoc(a: seq<nat>, b: seq<nat>, x: nat)
    requires multiset(a) == multiset(b)
    ensures multiset(a + [x]) == multiset(b + [x])
  {
  }

  lemma BagSwap(a: seq<nat>, b: seq<nat>, x: nat, y: nat)
    requires multiset(b) == multiset(a + [x])
    ensures multiset(b + [y]) == multiset(a + [y] + [x])
  {
    assert multiset(a + [y] + [x]) == multiset(a + [x]) + multiset{y};
  }

  lemma InRangePermuted(n: nat, a: seq<nat>, b: seq<nat>)
    requires multiset(a) == multiset(b) && InRange(n, b)
    ensures InRange(n, a) && |a| == |b|
  {
    forall k | 0 <= k < |a|
      ensures a[k] < n
    {
      assert a[k] in multiset(b);
    }
    assert |multiset(a)| == |a|;
  }

  lemma {:induction false} InsertedElements(scores: seq<real>, order: seq<nat>, i: nat)
    requires InRange(|scores|, order) && i < |scores|
    ensures multiset(Insert(scores, order, i)) == multiset(order + [i])
  {
    if order != [] && scores[order[|order| - 1]] < scores[i] {
      var rest, last := order[..|order| - 1], order[|order| - 1];
      InsertedElements(scores, rest, i);
      BagSwap(rest, Insert(scores, rest, i), i, last);
      assert order == rest + [last];
    }
  }

  predicate AllBefore(scores: seq<real>, order: seq<nat>, i: nat)
    requires InRange(|scores|, order) && i < |scores|
  {
    forall k :: 0 <= k < |order| ==> Before(scores, order[k], i)
  }

  lemma AscendingSnoc(scores: seq<real>, order: seq<nat>, i: nat)
    requires InRange(|scores|, order) && i < |scores| && Ascending(scores, order) && AllBefore(scores, order, i)
    ensures Ascending(scores, order + [i])
  {
  }

  lemma {:induction false} InsertedBefore(scores: seq<real>, order: seq<nat>, i: nat, m: nat)
    requires InRange(|scores|, order) && i < |scores| && m < |scores| && AllBefore(scores, order, m)
             && Before(scores, i, m)
    ensures AllBefore(scores, Insert(scores, order, i), m)
  {
    if order != [] && scores[order[|order| - 1]] < scores[i] {
      InsertedBefore(scores, order[..|order| - 1], i, m);
    }
  }

  lemma {:induction false} InsertedAscends(scores: seq<real>, order: seq<nat>, i: nat)
    requires i < |scores| && InRange(i, order) && InRange(|scores|, order) && Ascending(scores, order)
    ensures Ascending(scores, Insert(scores, order, i))
  {
    if order != [] {
      var rest, last := order[..|order| - 1], order[|order| - 1];
      assert AllBefore(scores, rest, last);
      if scores[last] >= scores[i] {
        AllAbove(scores, order, i);
        AscendingSnoc(scores, order, i);
      } else {
        InsertedAscends(scores, rest, i);
        InsertedBefore(scores, rest, i, last);
        AscendingSnoc(scores, Insert(scores, rest, i), last);
      }
    }
  }

  lemma AllAbove(scores: seq<real>, order: seq<nat>, i: nat)
    requires i < |scores| && InRange(i, order) && InRange(|scores|, order) && Ascending(scores, order) && order != []
    requires scores[order[|order| - 1]] >= scores[i]
    ensures AllBefore(scores, order, i)
  {
    forall k | 0 <= k < |order|
      ensures Before(scores, order[k], i)
    {
      if k < |order| - 1 {
        assert Before(scores, order[k], order[|order| - 1]);
      }
    }
  }

  lemma {:induction false} RankedElements(scores: seq<real>, n: nat)
    requires n <= |scores|
    ensures multiset(Ranked(scores, n)) == multiset(Positions(n))
  {
    if n > 0 {
      var earlier := Ranked(scores, n - 1);
      RankedElements(scores, n - 1);
      InsertedElements(scores, earlier, n - 1);
      BagSnoc(earlier, Positions(n - 1), n - 1);
      PositionsSnoc(n - 1);
    }
  }

  lemma RankedInRange(scores: seq<real>, n: nat)
    requires n <= |scores|
    ensures InRange(n, Ranked(scores, n))
  {
    RankedElements(scores, n);
    InRangePermuted(n, Ranked(scores, n), Positions(n));
  }

  lemma {:induction false} RankedAscends(scores: seq<real>, n: nat)
    requires n <= |scores|
    ensures Ascending(scores, Ranked(scores, n))
  {
    if n > 0 {
      RankedAscends(scores, n - 1);
      RankedInRange(scores, n - 1);
      InsertedAscends(scores, Ranked(scores, n - 1), n - 1);
    }
  }

  /** The order exists for any scores, and it is the only one. */
  lemma StableDescendingExactlyRanked(scores: seq<real>, order: seq<nat>)
    ensures IsStableDescending(scores, order) <==> order == Ranked(scores)
  {
    RankedElements(scores, |scores|);
    RankedAscends(scores, |scores|);
    if IsStableDescending(scores, order) {
      AscendingUnique(scores, order, Ranked(scores));
    }
  }

  lemma {:induction false} AscendingUnique(scores: seq<real>, a: seq<nat>, b: seq<nat>)
    requires InRange(|scores|, a) && InRange(|scores|, b) && Ascending(scores, a) && Ascending(scores, b)
    requires multiset(a) == multiset(b)
    ensures a == b
  {
    InRangePermuted(|scores|, a, b);
    if a != [] {
      SameFirst(scores, a, b);
      BagTail(a, b);
      AscendingUnique(scores, a[1..], b[1..]);
    }
  }

  lemma BagTail(a: seq<nat>, b: seq<nat>)
    requires a != [] && b != [] && a[0] == b[0] && multiset(a) == multiset(b)
    ensures multiset(a[1..]) == multiset(b[1..])
  {
    assert a == [a[0]] + a[1..] && b == [b[0]] + b[1..];
    assert multiset(a[1..]) == multiset(a) - multiset{a[0]};
    assert multiset(b[1..]) == multiset(b) - multiset{b[0]};
  }

  lemma SameFirst(scores: seq<real>, a: seq<nat>, b: seq<nat>)
    requires InRange(|scores|, a) && InRange(|scores|, b) && Ascending(scores, a) && Ascending(scores, b)
    requires a != [] && b != [] && multiset(a) == multiset(b)
    ensures a[0] == b[0]
  {
    assert a[0] in multiset(b) && b[0] in multiset(a);
    var p :| 0 <= p < |b| && b[p] == a[0];
    var q :| 0 <= q < |a| && a[q] == b[0];
  }

  lemma PrefixMember(order: seq<nat>, n: nat, l: nat)
    requires n <= |order| && l < |order|
    ensures l < n ==> order[l] in order[..n]
  {
    if l < n {
      assert order[..n][l] == order[l];
    }
  }

  /**
   Keeping a prefix of the order: as many as asked for, and everything kept comes before
   everything left out, so nothing left out scores higher and ties go to earlier rows.
   */
  lemma TopK(scores: seq<real>, limit: int)
    ensures var kept := Upto(Ranked(scores), limit);
            && |kept| == (if limit >= 0 then Min(limit, |scores|) else Max(|scores| + limit, 0))
            && InRange(|scores|, kept) && Ascending(scores, kept)
            && (forall k, j: nat :: 0 <= k < |kept| && j < |scores| && j !in kept ==> Before(scores, kept[k], j))
  {
    RankedElements(scores, |scores|);
    RankedAscends(scores, |scores|);
    var order := Ranked(scores);
    var kept := Upto(order, limit);
    forall k, j: nat | 0 <= k < |kept| && j < |scores| && j !in kept
      ensures Before(scores, kept[k], j)
    {
      assert Positions(|scores|)[j] in multiset(order);
      var l :| 0 <= l < |order| && order[l] == j;
      PrefixMember(order, |kept|, l);
    }
  }

  // ---------------------------------------------------------------------- search

  /** A chunk joined with its document, as the query selects it. */
  datatype Row = Row(id: string, sourceType: string, sourceId: string, title: string, content: string,
                     metadata: map<string, string>, embedding: Option<Vector>)

  datatype Evidence = Evidence(id: string, sourceType: string, sourceId: string, title: string, excerpt: string,
                               relevance: real, metadata: map<string, string>)

  const EXCERPT_CHARS := 1000

  /** WHERE c.embedding IS NOT NULL */
  function Embedded(table: seq<Row>): (rows: seq<Row>)
    ensures forall k :: 0 <= k < |rows| ==> rows[k].embedding.Some?
  {
    if table == [] then []
    else
      var last := table[|table| - 1];
      Embedded(table[..|table| - 1]) + (if last.embedding.Some? then [last] else [])
  }

  lemma {:induction false} EmbeddedExactly(table: seq<Row>, row: Row)
    ensures row in Embedded(table) <==> row in table && row.embedding.Some?
  {
    if table != [] {
      EmbeddedExactly(table[..|table| - 1], row);
      assert table == table[..|table| - 1] + [table[|table| - 1]];
    }
  }

  /** Rows are left out, not moved: what is true of the last row is true of the first. */
  lemma {:induction false} EmbeddedKeepsOrder(first: Row, rest: seq<Row>)
    ensures Embedded([first] + rest) == (if first.embedding.Some? then [first] else []) + Embedded(rest)
  {
    var kept := if first.embedding.Some? then [first] else [];
    if rest == [] {
      assert [first] + rest == [first] && [first][..0] == [] && Embedded([]) == [];
    } else {
      var init, last := rest[..|rest| - 1], rest[|rest| - 1];
      EmbeddedKeepsOrder(first, init);
      assert ([first] + rest)[..|rest|] == [first] + init;
      Assoc(kept, Embedded(init), if last.embedding.Some? then [last] else []);
    }
  }

  function Shown(row: Row, score: real): Evidence {
    Evidence(row.id, row.sourceType, row.sourceId, row.title, Upto(row.content, EXCERPT_CHARS), Clamp(score),
             row.metadata)
  }

  function Scores(sqrt: real -> real, query: Vector, rows: seq<Row>): (s: seq<real>)
    requires forall k :: 0 <= k < |rows| ==> rows[k].embedding.Some?
    ensures |s| == |rows|
  {
    seq(|rows|, k requires 0 <= k < |rows| => Similarity(sqrt, query, rows[k].embedding.value))
  }

  /** Python's sort of a list by a key, in reverse, as the stable descending order of the keys. */
  function Arrange<T>(items: seq<T>, keys: seq<real>): (r: seq<T>)
    requires |items| == |keys|
  {
    seq(|items|, k requires 0 <= k < |items| => items[Ranked(keys)[k]])
  }

  function Scored(sqrt: real -> real, query: Vector, rows: seq<Row>): (s: seq<(real, Row)>)
    requires forall k :: 0 <= k < |rows| ==> rows[k].embedding.Some?
    ensures |s| == |rows|
  {
    seq(|rows|, k requires 0 <= k < |rows| => (Similarity(sqrt, query, rows[k].embedding.value), rows[k]))
  }

  /** The row a result shows, field by field; the excerpt is its first 1000 characters. */
  predicate Shows(result: Evidence, row: Row) {
    && result.id == row.id && result.sourceType == row.sourceType && result.sourceId == row.sourceId
    && result.title == row.title && result.metadata == row.metadata
    && result.excerpt <= row.content && |result.excerpt| == Min(1000, |row.content|)
  }

  /** Every score is the score of its row. */
  predicate AreScores(sqrt: real -> real, query: Vector, rows: seq<Row>, scores: seq<real>) {
    && |scores| == |rows|
    && forall k :: 0 <= k < |rows| ==>
         rows[k].embedding.Some? && IsScore(sqrt, query, rows[k].embedding.value, scores[k]) && 0.0 <= scores[k] <= 1.0
  }

  lemma ScoresAreScores(sqrt: real -> real, query: Vector, rows: seq<Row>)
    requires IsRootFunction(sqrt)
    requires forall k :: 0 <= k < |rows| ==> rows[k].embedding.Some?
    ensures AreScores(sqrt, query, rows, Scores(sqrt, query, rows))
    ensures forall k :: 0 <= k < |rows| ==> Clamp(Scores(sqrt, query, rows)[k]) == Scores(sqrt, query, rows)[k]
  {
    forall k | 0 <= k < |rows|
      ensures IsScore(sqrt, query, rows[k].embedding.value, Scores(sqrt, query, rows)[k])
      ensures 0.0 <= Scores(sqrt, query, rows)[k] <= 1.0
      ensures Clamp(Scores(sqrt, query, rows)[k]) == Scores(sqrt, query, rows)[k]
    {
      var embedding := rows[k].embedding.value;
      SimilarityExactly(sqrt, query, embedding, Similarity(sqrt, query, embedding));
      ScoreInUnitInterval(sqrt, query, embedding);
    }
  }

  lemma ArrangedPrefix<T>(items: seq<T>, keys: seq<real>, limit: int)
    requires |items| == |keys|
    ensures var best, kept := Upto(Arrange(items, keys), limit), Upto(Ranked(keys), limit);
            |best| == |kept| && forall k :: 0 <= k < |best| ==> kept[k] < |items| && best[k] == items[kept[k]]
  {
  }

  /**
   search: the k-th result shows the k-th row of the stable descending order of the scores, and
   its relevance is the score itself, because clamping never changes it. The scores are those
   of the rows, whatever way they are computed.
   */
  method Search(sqrt: real -> real, query: Vector, table: seq<Row>, limit: int) returns (result: seq<Evidence>)
    requires IsRootFunction(sqrt)
    ensures var rows := Embedded(table);
            var scores := Scores(sqrt, query, rows);
            var kept := Upto(Ranked(scores), limit);
            && AreScores(sqrt, query, rows, scores) && |result| == |kept|
            && forall k :: 0 <= k < |result| ==>
                 && kept[k] < |rows| && Shows(result[k], rows[kept[k]])
                 && result[k].relevance == scores[kept[k]]
                 && IsScore(sqrt, query, rows[kept[k]].embedding.value, result[k].relevance)
  {
    var rows := Embedded(table);
    var scored: seq<(real, Row)> := [];
    var i := 0;
    while i < |rows|
      invariant 0 <= i <= |rows|
      invariant scored == Scored(sqrt, query, rows)[..i]
    {
      scored := scored + [(Similarity(sqrt, query, rows[i].embedding.value), rows[i])];
      i := i + 1;
    }
    var keys := seq(|scored|, k requires 0 <= k < |scored| => scored[k].0);
    assert keys == Scores(sqrt, query, rows);
    ScoresAreScores(sqrt, query, rows);
    ArrangedPrefix(scored, keys, limit);
    scored := Upto(Arrange(scored, keys), limit);
    result := seq(|scored|, k requires 0 <= k < |scored| => Shown(scored[k].1, scored[k].0));
  }

  // ----------------------------------------------------------------- the reranker

  function Relevances(evidence: seq<Evidence>): (r: seq<real>)
    ensures |r| == |evidence|
  {
    seq(|evidence|, k requires 0 <= k < |evidence| => evidence[k].relevance)
  }

  function ByRelevance(evidence: seq<Evidence>): seq<Evidence> {
    Arrange(evidence, Relevances(evidence))
  }

  predicate Descending(scores: seq<real>) {
    forall k, l :: 0 <= k < l < |scores| ==> scores[k] >= scores[l]
  }

  /** Reranking does nothing exactly to evidence that is already in descending order. */
  lemma RerankIdentity(evidence: seq<Evidence>)
    ensures Descending(Relevances(evidence)) <==> ByRelevance(evidence) == evidence
  {
    var scores := Relevances(evidence);
    RankedAscends(scores, |scores|);
    if Descending(scores) {
      StableDescendingExactlyRanked(scores, Positions(|scores|));
    }
    if ByRelevance(evidence) == evidence {
      forall k, l | 0 <= k < l < |scores|
        ensures scores[k] >= scores[l]
      {
        assert evidence[k] == evidence[Ranked(scores)[k]] && evidence[l] == evidence[Ranked(scores)[l]];
        assert Before(scores, Ranked(scores)[k], Ranked(scores)[l]);
      }
    }
  }

  /** So reranking what a search returned changes nothing, whatever the limit. */
  lemma SearchThenRerank(scores: seq<real>, limit: int, result: seq<Evidence>)
    requires |result| == |Upto(Ranked(scores), limit)|
    requires forall k :: 0 <= k < |result| ==> result[k].relevance == scores[Upto(Ranked(scores), limit)[k]]
    ensures ByRelevance(result) == result
  {
    TopK(scores, limit);
    var kept := Upto(Ranked(scores), limit);
    forall k, l | 0 <= k < l < |result|
      ensures Relevances(result)[k] >= Relevances(result)[l]
    {
      assert Before(scores, kept[k], kept[l]);
    }
    RerankIdentity(result);
  }

  /**
   A stored chunk whose tokens are a permutation of the query's scores 1; whatever is ranked
   before it scores 1 too and is an earlier row.
   */
  lemma PermutedChunkOnTop(sqrt: real -> real, hash: Hash, dimensions: nat, query: seq<Token>, chunk: seq<Token>,
                           rows: seq<Row>, i: nat, j: nat)
    requires IsRootFunction(sqrt) && dimensions > 0 && multiset(query) == multiset(chunk)
    requires !IsZero(Embedding(sqrt, hash, dimensions, query))
    requires (forall k :: 0 <= k < |rows| ==> rows[k].embedding.Some?) && i < |rows| && j < |rows|
    requires rows[i].embedding.value == Embedding(sqrt, hash, dimensions, chunk)
    ensures var scores := Scores(sqrt, Embedding(sqrt, hash, dimensions, query), rows);
            scores[i] == 1.0 && (Before(scores, j, i) ==> scores[j] == 1.0 && j < i)
  {
    SameTokensScoreHighest(sqrt, hash, dimensions, query, chunk, rows[j].embedding.value);
  }
}
