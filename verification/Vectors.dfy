/**
 Cosine similarity over exact reals, and why it is a score between 0 and 1. The square
 root is a parameter: any function that gives the nonnegative root.
 */
module Vectors {
  type Vector = seq<real>

  function Dot(a: Vector, b: Vector): real
    requires |a| == |b|
  {
    if a == [] then 0.0 else a[0] * b[0] + Dot(a[1..], b[1..])
  }

  ghost predicate IsRootFunction(sqrt: real -> real) {
    forall x: real :: x >= 0.0 ==> sqrt(x) >= 0.0 && sqrt(x) * sqrt(x) == x
  }

  /** _cosine_similarity, scaled from [-1, 1] to [0, 1]; 0 when it is not defined. */
  function Similarity(sqrt: real -> real, left: Vector, right: Vector): real {
    if left == [] || right == [] || |left| != |right| then 0.0
    else
      var leftNorm, rightNorm := sqrt(Dot(left, left)), sqrt(Dot(right, right));
      if leftNorm == 0.0 || rightNorm == 0.0 then 0.0
      else
        Scaled(Cosine(Dot(left, right), leftNorm, rightNorm))
  }

  function Cosine(numerator: real, leftNorm: real, rightNorm: real): real
    requires leftNorm != 0.0 && rightNorm != 0.0
  {
    ProductZero(leftNorm, rightNorm);
    numerator / (leftNorm * rightNorm)
  }

  function Scaled(cosine: real): real { (cosine + 1.0) / 2.0 }

  lemma ProductPositive(m: real, n: real)
    requires m > 0.0 && n > 0.0
    ensures m * n > 0.0
  {
  }

  lemma ProductZero(m: real, n: real)
    ensures m * n == 0.0 <==> m == 0.0 || n == 0.0
  {
    if m != 0.0 && n != 0.0 {
      var p, q := if m > 0.0 then m else -m, if n > 0.0 then n else -n;
      ProductPositive(p, q);
      assert p * q == m * n || p * q == -(m * n);
    } else if m == 0.0 {
      assert m * n == 0.0;
    }
  }

  // ------------------------------------------------------------ Cauchy-Schwarz

  lemma Square(x: real)
    ensures x * x >= 0.0
  {
  }

  lemma {:induction false} SquaredNormNonNegative(a: Vector)
    ensures Dot(a, a) >= 0.0
  {
    if a != [] {
      Square(a[0]);
      SquaredNormNonNegative(a[1..]);
    }
  }

  /** The squared norm of x * a + y * b, expanded, is not negative. */
  lemma {:induction false} CombinationNonNegative(a: Vector, b: Vector, x: real, y: real)
    requires |a| == |b|
    ensures x * x * Dot(a, a) + 2.0 * x * y * Dot(a, b) + y * y * Dot(b, b) >= 0.0
  {
    if a != [] {
      CombinationNonNegative(a[1..], b[1..], x, y);
      Square(x * a[0] + y * b[0]);
      Expand(x, y, a[0], b[0], Dot(a[1..], a[1..]), Dot(a[1..], b[1..]), Dot(b[1..], b[1..]));
    }
  }

  lemma Expand(x: real, y: real, p: real, q: real, aa: real, ab: real, bb: real)
    ensures x * x * (p * p + aa) + 2.0 * x * y * (p * q + ab) + y * y * (q * q + bb)
         == (x * p + y * q) * (x * p + y * q) + (x * x * aa + 2.0 * x * y * ab + y * y * bb)
  {
    assert (x * p + y * q) * (x * p + y * q) == x * x * (p * p) + 2.0 * x * y * (p * q) + y * y * (q * q);
    assert x * x * (p * p + aa) == x * x * (p * p) + x * x * aa;
    assert 2.0 * x * y * (p * q + ab) == 2.0 * x * y * (p * q) + 2.0 * x * y * ab;
    assert y * y * (q * q + bb) == y * y * (q * q) + y * y * bb;
  }

  /** A vector of norm 0 is orthogonal to every other. */
  lemma {:induction false} ZeroIsOrthogonal(a: Vector, b: Vector)
    requires |a| == |b| && Dot(b, b) == 0.0
    ensures Dot(a, b) == 0.0
  {
    if a != [] {
      Square(b[0]);
      SquaredNormNonNegative(b[1..]);
      ProductZero(b[0], b[0]);
      ZeroIsOrthogonal(a[1..], b[1..]);
      ProductZero(a[0], b[0]);
    }
  }

  /** For any two vectors of the same length. */
  lemma CauchySchwarz(a: Vector, b: Vector)
    requires |a| == |b|
    ensures Dot(a, b) * Dot(a, b) <= Dot(a, a) * Dot(b, b)
  {
    var aa, ab, bb := Dot(a, a), Dot(a, b), Dot(b, b);
    SquaredNormNonNegative(b);
    if bb == 0.0 {
      ZeroIsOrthogonal(a, b);
    } else {
      CombinationNonNegative(a, b, bb, -ab);
      Factor(aa, ab, bb);
      Cancel(bb, aa * bb - ab * ab);
    }
  }

  lemma Factor(aa: real, ab: real, bb: real)
    ensures bb * bb * aa + 2.0 * bb * (-ab) * ab + (-ab) * (-ab) * bb == bb * (aa * bb - ab * ab)
  {
    assert bb * bb * aa == bb * (aa * bb);
    assert 2.0 * bb * (-ab) * ab == -2.0 * (bb * (ab * ab));
    assert (-ab) * (-ab) * bb == bb * (ab * ab);
    assert bb * (aa * bb - ab * ab) == bb * (aa * bb) - bb * (ab * ab);
  }

  lemma Cancel(p: real, x: real)
    requires p > 0.0 && p * x >= 0.0
    ensures x >= 0.0
  {
  }

  // ------------------------------------------------------------------ the score

  lemma SquareIncreases(p: real, x: real)
    requires 0.0 < p < x
    ensures p * p < x * x
  {
    ProductPositive(x - p, x + p);
    assert (x - p) * (x + p) == x * x - p * p;
  }

  /** From squares to values. */
  lemma BoundedBySquares(x: real, p: real)
    requires p > 0.0 && x * x <= p * p
    ensures -p <= x <= p
  {
    assert x * x == (-x) * (-x);
    if x > p {
      SquareIncreases(p, x);
    } else if -x > p {
      SquareIncreases(p, -x);
    }
  }

  lemma QuotientBounded(x: real, p: real)
    requires p > 0.0 && -p <= x <= p
    ensures -1.0 <= x / p <= 1.0
  {
    var q := x / p;
    assert q * p == x;
    assert (1.0 - q) * p == p - x && (q + 1.0) * p == x + p;
    Cancel(p, 1.0 - q) by { assert p * (1.0 - q) == (1.0 - q) * p; }
    Cancel(p, q + 1.0) by { assert p * (q + 1.0) == (q + 1.0) * p; }
  }

  lemma PositiveNorm(sqrt: real -> real, a: Vector)
    requires IsRootFunction(sqrt)
    ensures sqrt(Dot(a, a)) >= 0.0 && sqrt(Dot(a, a)) * sqrt(Dot(a, a)) == Dot(a, a)
    ensures sqrt(Dot(a, a)) != 0.0 <==> Dot(a, a) > 0.0
  {
    SquaredNormNonNegative(a);
    ProductZero(sqrt(Dot(a, a)), sqrt(Dot(a, a)));
  }

  lemma ProductOfSquares(m: real, n: real)
    ensures (m * n) * (m * n) == (m * m) * (n * n)
  {
  }

  /** The similarity of any two vectors lies in [0, 1], so clamping it changes nothing. */
  lemma ScoreInUnitInterval(sqrt: real -> real, left: Vector, right: Vector)
    requires IsRootFunction(sqrt)
    ensures 0.0 <= Similarity(sqrt, left, right) <= 1.0
    ensures Clamp(Similarity(sqrt, left, right)) == Similarity(sqrt, left, right)
  {
    if left != [] && right != [] && |left| == |right| {
      var m, n := sqrt(Dot(left, left)), sqrt(Dot(right, right));
      PositiveNorm(sqrt, left);
      PositiveNorm(sqrt, right);
      if m != 0.0 && n != 0.0 {
        QuotientOfNorms(left, right, m, n);
        Halved(Cosine(Dot(left, right), m, n));
      }
    }
  }

  lemma Halved(q: real)
    requires -1.0 <= q <= 1.0
    ensures 0.0 <= Scaled(q) <= 1.0
  {
  }

  lemma QuotientOfNorms(left: Vector, right: Vector, m: real, n: real)
    requires |left| == |right| && Dot(right, right) > 0.0 && m > 0.0 && n > 0.0 && m * m == Dot(left, left)
             && n * n == Dot(right, right)
    ensures -1.0 <= Cosine(Dot(left, right), m, n) <= 1.0
  {
    ProductPositive(m, n);
    CauchySchwarz(left, right);
    ProductOfSquares(m, n);
    BoundedBySquares(Dot(left, right), m * n);
    QuotientBounded(Dot(left, right), m * n);
  }

  /** max(min(score, 1.0), 0.0) */
  function Clamp(score: real): real {
    var below := if score <= 1.0 then score else 1.0;
    if below >= 0.0 then below else 0.0
  }

  /** A nonzero vector is as similar to itself as any vector is to any other. */
  lemma SelfSimilarity(sqrt: real -> real, a: Vector)
    requires IsRootFunction(sqrt) && Dot(a, a) > 0.0
    ensures Similarity(sqrt, a, a) == 1.0
  {
    PositiveNorm(sqrt, a);
    assert a != [];
    var n := sqrt(Dot(a, a));
    assert Cosine(Dot(a, a), n, n) == Dot(a, a) / Dot(a, a);
    assert Scaled(1.0) == 1.0;
  }

  lemma {:induction false} ZeroVector(a: Vector)
    ensures Dot(a, a) == 0.0 <==> forall k :: 0 <= k < |a| ==> a[k] == 0.0
  {
    if a != [] {
      ZeroVector(a[1..]);
      SquaredNormNonNegative(a[1..]);
      Square(a[0]);
      ProductZero(a[0], a[0]);
      assert forall k :: 0 <= k < |a[1..]| ==> a[1..][k] == a[k + 1];
      assert forall k :: 1 <= k < |a| ==> a[k] == a[1..][k - 1];
    }
  }

  // ------------------------------------------------------ what the score means

  function Product(x: real, y: real): real { x * y }

  /** The dot product is the sum of the products of the components. */
  lemma {:induction false} DotSnoc(a: Vector, b: Vector, x: real, y: real)
    requires |a| == |b|
    ensures Dot(a + [x], b + [y]) == Dot(a, b) + x * y
  {
    if a != [] {
      assert (a + [x])[1..] == a[1..] + [x] && (b + [y])[1..] == b[1..] + [y];
      DotSnoc(a[1..], b[1..], x, y);
    }
  }

  /** Two vectors of one length, neither of them zero. */
  predicate Comparable(a: Vector, b: Vector) {
    |a| == |b| && Dot(a, a) > 0.0 && Dot(b, b) > 0.0
  }

  /** The product of the two norms. */
  function Norms(sqrt: real -> real, a: Vector, b: Vector): real {
    Product(sqrt(Dot(a, a)), sqrt(Dot(b, b)))
  }

  /**
   A score of two vectors: 2 * score - 1 is the cosine of their angle, their dot product by
   the product of their norms; and 0 for vectors that cannot be compared.
   */
  predicate IsScore(sqrt: real -> real, a: Vector, b: Vector, score: real) {
    if Comparable(a, b) then Product(2.0 * score - 1.0, Norms(sqrt, a, b)) == Dot(a, b) else score == 0.0
  }

  lemma NormsPositive(sqrt: real -> real, a: Vector, b: Vector)
    requires IsRootFunction(sqrt) && Comparable(a, b)
    ensures Norms(sqrt, a, b) > 0.0 && sqrt(Dot(a, a)) > 0.0 && sqrt(Dot(b, b)) > 0.0
  {
    PositiveNorm(sqrt, a);
    PositiveNorm(sqrt, b);
    ProductPositive(sqrt(Dot(a, a)), sqrt(Dot(b, b)));
  }

  lemma QuotientLaw(d: real, p: real)
    requires p > 0.0
    ensures Product(2.0 * ((d / p + 1.0) / 2.0) - 1.0, p) == d
  {
    var q := d / p;
    assert q * p == d;
    assert 2.0 * ((q + 1.0) / 2.0) - 1.0 == q;
  }

  /** Products with a positive factor are ordered as their other factors. */
  lemma ProductOrder(x: real, y: real, p: real)
    requires p > 0.0
    ensures x < y <==> Product(x, p) < Product(y, p)
  {
    assert (y - x) * p == y * p - x * p;
    if x < y {
      ProductPositive(y - x, p);
    } else if y < x {
      ProductPositive(x - y, p);
      assert (x - y) * p == x * p - y * p;
    }
  }

  /** The similarity is the one and only score of two vectors. */
  lemma SimilarityExactly(sqrt: real -> real, a: Vector, b: Vector, score: real)
    requires IsRootFunction(sqrt)
    ensures IsScore(sqrt, a, b, score) <==> score == Similarity(sqrt, a, b)
  {
    var s := Similarity(sqrt, a, b);
    PositiveNorm(sqrt, a);
    PositiveNorm(sqrt, b);
    SquaredNormNonNegative(a);
    SquaredNormNonNegative(b);
    if Comparable(a, b) {
      var p := Norms(sqrt, a, b);
      NormsPositive(sqrt, a, b);
      QuotientLaw(Dot(a, b), p);
      ProductOrder(2.0 * score - 1.0, 2.0 * s - 1.0, p);
      ProductOrder(2.0 * s - 1.0, 2.0 * score - 1.0, p);
    }
  }

  /** Among vectors of one norm, the higher dot product scores higher, and only it. */
  lemma HigherDotScoresHigher(sqrt: real -> real, q: Vector, a: Vector, b: Vector)
    requires IsRootFunction(sqrt) && Comparable(q, a) && Comparable(q, b) && Dot(a, a) == Dot(b, b)
    ensures Dot(q, a) < Dot(q, b) <==> Similarity(sqrt, q, a) < Similarity(sqrt, q, b)
  {
    var x, y := Similarity(sqrt, q, a), Similarity(sqrt, q, b);
    SimilarityExactly(sqrt, q, a, x);
    SimilarityExactly(sqrt, q, b, y);
    NormsPositive(sqrt, q, a);
    ProductOrder(2.0 * x - 1.0, 2.0 * y - 1.0, Norms(sqrt, q, a));
  }

  /** Orthogonal vectors score one half. */
  lemma OrthogonalScoresHalf(sqrt: real -> real, a: Vector, b: Vector)
    requires IsRootFunction(sqrt) && Comparable(a, b)
    ensures Dot(a, b) == 0.0 <==> Similarity(sqrt, a, b) == 0.5
  {
    var s := Similarity(sqrt, a, b);
    SimilarityExactly(sqrt, a, b, s);
    NormsPositive(sqrt, a, b);
    ProductZero(2.0 * s - 1.0, Norms(sqrt, a, b));
  }

  lemma {:induction false} DotOpposite(a: Vector, b: Vector)
    requires |a| == |b| && forall k :: 0 <= k < |a| ==> b[k] == -a[k]
    ensures Dot(a, b) == -Dot(a, a) && Dot(b, b) == Dot(a, a)
  {
    if a != [] {
      assert forall k :: 0 <= k < |a[1..]| ==> b[1..][k] == b[k + 1] && a[1..][k] == a[k + 1];
      DotOpposite(a[1..], b[1..]);
    }
  }

  /** Opposite vectors score 0, the lowest score there is. */
  lemma OppositeScoresZero(sqrt: real -> real, a: Vector, b: Vector)
    requires IsRootFunction(sqrt) && Dot(a, a) > 0.0
    requires |a| == |b| && forall k :: 0 <= k < |a| ==> b[k] == -a[k]
    ensures Similarity(sqrt, a, b) == 0.0
  {
    DotOpposite(a, b);
    PositiveNorm(sqrt, a);
    assert Product(-1.0, Norms(sqrt, a, b)) == -Dot(a, a);
    SimilarityExactly(sqrt, a, b, 0.0);
  }
}
