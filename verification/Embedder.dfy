/**
 LocalEmbedder: signed feature hashing into a fixed number of slots, then normalising.
 Tokenising is left out; hashing is any function from a token to a number and a sign bit.
 */
module Embedder {
  import opened Wrappers
  import opened Vectors

  type Token = string

  /** digest[:4] as a number, and whether digest[4] is even. */
  type Hash = Token -> (nat, bool)

  function Slot(hash: Hash, dimensions: nat, token: Token): nat
    requires dimensions > 0
  {
    hash(token).0 % dimensions
  }

  function Sign(hash: Hash, token: Token): real {
    if hash(token).1 then 1.0 else -1.0
  }

  /** The sum of the signs of the tokens hashed to slot k. */
  function SlotSum(hash: Hash, dimensions: nat, tokens: seq<Token>, k: nat): real
    requires dimensions > 0
  {
    if tokens == [] then 0.0
    else
      var last := tokens[|tokens| - 1];
      SlotSum(hash, dimensions, tokens[..|tokens| - 1], k)
        + (if Slot(hash, dimensions, last) == k then Sign(hash, last) else 0.0)
  }

  function Raw(hash: Hash, dimensions: nat, tokens: seq<Token>): Vector
    requires dimensions > 0 || tokens == []
  {
    seq(dimensions, k requires 0 <= k < dimensions => SlotSum(hash, dimensions, tokens, k))
  }

  function Normalized(sqrt: real -> real, v: Vector): Vector {
    var norm := sqrt(Dot(v, v));
    if norm == 0.0 then v else seq(|v|, k requires 0 <= k < |v| => v[k] / norm)
  }

  function Embedding(sqrt: real -> real, hash: Hash, dimensions: nat, tokens: seq<Token>): Vector
    requires dimensions > 0 || tokens == []
  {
    Normalized(sqrt, Raw(hash, dimensions, tokens))
  }

  lemma SlotSumSnoc(hash: Hash, dimensions: nat, tokens: seq<Token>, token: Token, k: nat)
    requires dimensions > 0
    ensures SlotSum(hash, dimensions, tokens + [token], k) ==
            SlotSum(hash, dimensions, tokens, k)
              + (if Slot(hash, dimensions, token) == k then Sign(hash, token) else 0.0)
  {
    assert (tokens + [token])[..|tokens|] == tokens;
  }

  /**
   _embed_one. Before normalising, each slot holds the sum of the signs of its tokens. With
   no slots and some token the remainder by zero raises (None).
   */
  method EmbedOne(sqrt: real -> real, hash: Hash, dimensions: nat, tokens: seq<Token>) returns (r: Option<Vector>)
    ensures r.None? <==> dimensions == 0 && tokens != []
    ensures r.Some? ==> r.value == Embedding(sqrt, hash, dimensions, tokens)
  {
    if dimensions == 0 && tokens != [] { return None; }
    var vector := new real[dimensions](_ => 0.0);
    var i := 0;
    while i < |tokens|
      invariant 0 <= i <= |tokens|
      invariant dimensions > 0 ==> forall k :: 0 <= k < dimensions ==>
                  vector[k] == SlotSum(hash, dimensions, tokens[..i], k)
    {
      var index := Slot(hash, dimensions, tokens[i]);
      assert tokens[..i + 1] == tokens[..i] + [tokens[i]];
      forall k | 0 <= k < dimensions
        ensures SlotSum(hash, dimensions, tokens[..i + 1], k) ==
                SlotSum(hash, dimensions, tokens[..i], k) + (if index == k then Sign(hash, tokens[i]) else 0.0)
      {
        SlotSumSnoc(hash, dimensions, tokens[..i], tokens[i], k);
      }
      vector[index] := vector[index] + Sign(hash, tokens[i]);
      i := i + 1;
    }
    assert tokens[..i] == tokens;
    assert vector[..] == Raw(hash, dimensions, tokens);
    var norm := sqrt(Dot(vector[..], vector[..]));
    if norm == 0.0 { return Some(vector[..]); }
    var v := vector[..];
    return Some(seq(|v|, k requires 0 <= k < |v| => v[k] / norm));
  }

  // ------------------------------------------------------------ the meaning

  /** The tokens hashed to slot k with the given sign bit. */
  function Hits(hash: Hash, dimensions: nat, tokens: seq<Token>, k: nat, positive: bool): seq<Token>
    requires dimensions > 0
  {
    if tokens == [] then []
    else
      var hit := Slot(hash, dimensions, tokens[0]) == k && hash(tokens[0]).1 == positive;
      (if hit then [tokens[0]] else []) + Hits(hash, dimensions, tokens[1..], k, positive)
  }

  lemma {:induction false} HitsSnoc(hash: Hash, dimensions: nat, tokens: seq<Token>, token: Token, k: nat,
                                    positive: bool)
    requires dimensions > 0
    ensures var hit := Slot(hash, dimensions, token) == k && hash(token).1 == positive;
            Hits(hash, dimensions, tokens + [token], k, positive) == Hits(hash, dimensions, tokens, k, positive)
              + (if hit then [token] else [])
  {
    if tokens == [] {
      assert [] + [token] == [token] && [token][1..] == [];
    } else {
      ConsAppend(tokens, [token]);
      HitsSnoc(hash, dimensions, tokens[1..], token, k, positive);
    }
  }

  /** A slot holds the number of its positive tokens less the number of its negative ones. */
  lemma {:induction false} SlotSumCounts(hash: Hash, dimensions: nat, tokens: seq<Token>, k: nat)
    requires dimensions > 0
    ensures SlotSum(hash, dimensions, tokens, k) ==
            (|Hits(hash, dimensions, tokens, k, true)| - |Hits(hash, dimensions, tokens, k, false)|) as real
    decreases |tokens|
  {
    if tokens != [] {
      var rest, last := tokens[..|tokens| - 1], tokens[|tokens| - 1];
      SlotSumCounts(hash, dimensions, rest, k);
      assert rest + [last] == tokens;
      HitsSnoc(hash, dimensions, rest, last, k, true);
      HitsSnoc(hash, dimensions, rest, last, k, false);
    }
  }

  /** Removing one occurrence of a token anywhere takes its sign out of its slot. */
  lemma {:induction false} SlotSumWithout(hash: Hash, dimensions: nat, tokens: seq<Token>, i: nat, k: nat)
    requires dimensions > 0 && i < |tokens|
    ensures SlotSum(hash, dimensions, tokens, k) ==
            SlotSum(hash, dimensions, tokens[..i] + tokens[i + 1..], k)
            + (if Slot(hash, dimensions, tokens[i]) == k then Sign(hash, tokens[i]) else 0.0)
    decreases |tokens|
  {
    var n := |tokens| - 1;
    if i == n {
      assert tokens[..i] + tokens[i + 1..] == tokens[..n];
    } else {
      SlotSumWithout(hash, dimensions, tokens[..n], i, k);
      assert tokens[..n][..i] + tokens[..n][i + 1..] + [tokens[n]] == tokens[..i] + tokens[i + 1..];
      SlotSumSnoc(hash, dimensions, tokens[..n][..i] + tokens[..n][i + 1..], tokens[n], k);
    }
  }

  lemma MultisetWithout(tokens: seq<Token>, i: nat)
    requires i < |tokens|
    ensures multiset(tokens[..i] + tokens[i + 1..]) == multiset(tokens) - multiset{tokens[i]}
  {
    assert tokens == tokens[..i] + [tokens[i]] + tokens[i + 1..];
  }

  lemma {:induction false} SlotSumPermuted(hash: Hash, dimensions: nat, a: seq<Token>, b: seq<Token>, k: nat)
    requires dimensions > 0 && multiset(a) == multiset(b)
    ensures SlotSum(hash, dimensions, a, k) == SlotSum(hash, dimensions, b, k)
    decreases |a|
  {
    if a == [] {
      assert |multiset(b)| == 0;
    } else {
      var n := |a| - 1;
      assert a[n] in multiset(b);
      var i :| 0 <= i < |b| && b[i] == a[n];
      MultisetWithout(a, n);
      MultisetWithout(b, i);
      assert a[..n] + a[n + 1..] == a[..n];
      SlotSumPermuted(hash, dimensions, a[..n], b[..i] + b[i + 1..], k);
      SlotSumWithout(hash, dimensions, b, i, k);
    }
  }

  /** The embedding depends only on the multiset of the tokens. */
  lemma EmbeddingPermuted(sqrt: real -> real, hash: Hash, dimensions: nat, a: seq<Token>, b: seq<Token>)
    requires dimensions > 0 && multiset(a) == multiset(b)
    ensures Embedding(sqrt, hash, dimensions, a) == Embedding(sqrt, hash, dimensions, b)
  {
    forall k: nat | k < dimensions
      ensures Raw(hash, dimensions, a)[k] == Raw(hash, dimensions, b)[k]
    {
      SlotSumPermuted(hash, dimensions, a, b, k);
    }
    assert Raw(hash, dimensions, a) == Raw(hash, dimensions, b);
  }

  lemma {:induction false} DotScaled(v: Vector, w: Vector, norm: real, square: real)
    requires Product(norm, norm) == square && |v| == |w| && forall k :: 0 <= k < |v| ==> Product(w[k], norm) == v[k]
    ensures Product(Dot(w, w), square) == Dot(v, v)
  {
    if v != [] {
      assert forall k :: 0 <= k < |v[1..]| ==> w[1..][k] == w[k + 1] && v[1..][k] == v[k + 1];
      DotScaled(v[1..], w[1..], norm, square);
      ScaleOut(w[0], v[0], norm, square, Dot(w[1..], w[1..]));
    }
  }

  lemma ScaleOut(x: real, y: real, norm: real, square: real, rest: real)
    requires Product(norm, norm) == square && Product(x, norm) == y
    ensures Product(x * x + rest, square) == y * y + Product(rest, square)
  {
    assert y * y == x * x * (norm * norm);
  }

  lemma One(x: real, p: real)
    requires p > 0.0 && Product(x, p) == p
    ensures x == 1.0
  {
    assert (x - 1.0) * p == 0.0;
    ProductZero(x - 1.0, p);
  }

  lemma QuotientTimes(x: real, y: real)
    requires y != 0.0
    ensures Product(x / y, y) == x && (x / y == 0.0 <==> x == 0.0)
  {
    var q := x / y;
    assert q * y == x;
    ProductZero(q, y);
  }

  /** The slot of a token is the remainder of its number by the number of slots. */
  lemma SlotIsRemainder(hash: Hash, dimensions: nat, token: Token)
    requires dimensions > 0
    ensures Slot(hash, dimensions, token) < dimensions
    ensures exists q: nat :: hash(token).0 == q * dimensions + Slot(hash, dimensions, token)
  {
    var q: nat := hash(token).0 / dimensions;
    assert hash(token).0 == q * dimensions + Slot(hash, dimensions, token);
  }

  /** The embedding points where the slot sums point: slot by slot, it is the sum by their norm. */
  lemma EmbeddingDirection(sqrt: real -> real, hash: Hash, dimensions: nat, tokens: seq<Token>, k: nat)
    requires IsRootFunction(sqrt) && k < dimensions
    ensures var e, raw := Embedding(sqrt, hash, dimensions, tokens), Raw(hash, dimensions, tokens);
            var norm := sqrt(Dot(raw, raw));
            && |e| == |raw| == dimensions && raw[k] == SlotSum(hash, dimensions, tokens, k)
            && if norm == 0.0 then e[k] == raw[k] else Product(e[k], norm) == raw[k]
  {
    var raw := Raw(hash, dimensions, tokens);
    var norm := sqrt(Dot(raw, raw));
    if norm != 0.0 {
      QuotientTimes(raw[k], norm);
    }
  }

  ghost predicate IsZero(v: Vector) {
    forall k :: 0 <= k < |v| ==> v[k] == 0.0
  }

  /** Normalising gives a vector of squared norm 1, except that it leaves the zero vector. */
  lemma NormalizedIsUnit(sqrt: real -> real, v: Vector)
    requires IsRootFunction(sqrt)
    ensures var w := Normalized(sqrt, v);
            |w| == |v| && (IsZero(w) <==> IsZero(v)) && (!IsZero(v) ==> Dot(w, w) == 1.0)
  {
    PositiveNorm(sqrt, v);
    ZeroVector(v);
    SquaredNormNonNegative(v);
    var norm := sqrt(Dot(v, v));
    if norm != 0.0 {
      Divided(v, Normalized(sqrt, v), norm);
    }
  }

  lemma Divided(v: Vector, w: Vector, norm: real)
    requires Dot(v, v) > 0.0 && norm != 0.0 && norm * norm == Dot(v, v)
    requires |w| == |v| && forall k :: 0 <= k < |v| ==> w[k] == v[k] / norm
    ensures Dot(w, w) == 1.0 && !IsZero(w)
  {
    forall k | 0 <= k < |v|
      ensures Product(w[k], norm) == v[k]
    {
      QuotientTimes(v[k], norm);
    }
    DotScaled(v, w, norm, Dot(v, v));
    One(Dot(w, w), Dot(v, v));
    ZeroVector(w);
  }

  /** In exact arithmetic the vector returned is zero or has squared norm exactly 1. */
  lemma UnitOrZero(sqrt: real -> real, hash: Hash, dimensions: nat, tokens: seq<Token>)
    requires IsRootFunction(sqrt) && (dimensions > 0 || tokens == [])
    ensures var e := Embedding(sqrt, hash, dimensions, tokens);
            && |e| == dimensions
            && if IsZero(Raw(hash, dimensions, tokens)) then IsZero(e) else Dot(e, e) == 1.0
  {
    NormalizedIsUnit(sqrt, Raw(hash, dimensions, tokens));
  }

  /**
   A chunk whose tokens are a permutation of the query's scores 1 whenever the query's
   embedding is not zero, and no vector at all scores higher.
   */
  lemma SameTokensScoreHighest(sqrt: real -> real, hash: Hash, dimensions: nat, query: seq<Token>, chunk: seq<Token>,
                               other: Vector)
    requires IsRootFunction(sqrt) && dimensions > 0 && multiset(query) == multiset(chunk)
    requires !IsZero(Embedding(sqrt, hash, dimensions, query))
    ensures Similarity(sqrt, Embedding(sqrt, hash, dimensions, query), Embedding(sqrt, hash, dimensions, chunk)) == 1.0
    ensures Similarity(sqrt, Embedding(sqrt, hash, dimensions, query), other) <= 1.0
  {
    var q := Embedding(sqrt, hash, dimensions, query);
    EmbeddingPermuted(sqrt, hash, dimensions, query, chunk);
    NormalizedIsUnit(sqrt, Raw(hash, dimensions, query));
    SelfSimilarity(sqrt, q);
    ScoreInUnitInterval(sqrt, q, other);
  }
}
