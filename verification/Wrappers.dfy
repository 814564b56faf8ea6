/** Optional values, results with an error, and the list operations the other modules share. */
module Wrappers {

  datatype Option<+T> = None | Some(value: T)

  datatype Result<+T, +E> = Success(value: T) | Failure(error: E)

  function Min(a: int, b: int): (r: int)
    ensures r <= a && r <= b && (r == a || r == b)
  {
    if a <= b then a else b
  }

  function Max(a: int, b: int): (r: int)
    ensures r >= a && r >= b && (r == a || r == b)
  {
    if a >= b then a else b
  }

  /** Python's s[:n]: a negative n counts from the end. */
  function Upto<T>(s: seq<T>, n: int): (r: seq<T>)
    ensures r <= s && (n >= 0 ==> |r| == Min(n, |s|)) && (n < 0 ==> |r| == Max(|s| + n, 0))
  {
    if n >= 0 then s[..Min(n, |s|)] else s[..Max(|s| + n, 0)]
  }

  lemma Assoc<T>(a: seq<T>, b: seq<T>, c: seq<T>)
    ensures a + (b + c) == a + b + c
  {
  }

  lemma ConsAppend<T>(a: seq<T>, b: seq<T>)
    requires a != []
    ensures (a + b)[0] == a[0] && (a + b)[1..] == a[1..] + b
  {
  }

  lemma Uncons<T>(s: seq<T>, first: T, rest: seq<T>)
    requires s == [first] + rest
    ensures s != [] && s[0] == first && s[1..] == rest
  {
  }

  lemma UptoAppend<T>(a: seq<T>, b: seq<T>, n: int)
    requires |a| <= n
    ensures Upto(a, n) == a && Upto(a + b, n) == a + Upto(b, n - |a|)
  {
  }

  function Flatten<T>(ss: seq<seq<T>>): seq<T> {
    if ss == [] then [] else ss[0] + Flatten(ss[1..])
  }

  /** a is b with some elements left out. */
  ghost predicate Subsequence<T>(a: seq<T>, b: seq<T>)
    decreases |b|
  {
    || a == []
    || (b != [] && Subsequence(a, b[..|b| - 1]))
    || (b != [] && a[|a| - 1] == b[|b| - 1] && Subsequence(a[..|a| - 1], b[..|b| - 1]))
  }

  lemma SubsequenceSkip<T>(a: seq<T>, b: seq<T>, x: T)
    requires Subsequence(a, b)
    ensures Subsequence(a, b + [x])
  {
    assert (b + [x])[..|b|] == b;
  }

  lemma SubsequenceTake<T>(a: seq<T>, b: seq<T>, x: T)
    requires Subsequence(a, b)
    ensures Subsequence(a + [x], b + [x])
  {
    assert (a + [x])[..|a|] == a && (b + [x])[..|b|] == b;
  }

  /** A number above all of a finite set of numbers. */
  lemma Above(xs: set<int>) returns (m: int)
    ensures 0 <= m && forall x :: x in xs ==> x < m
  {
    m := 0;
    if x :| x in xs {
      var rest := xs - {x};
      m := Above(rest);
      m := Max(m, x + 1);
      assert forall y :: y in xs ==> y == x || y in rest;
    }
  }
}
