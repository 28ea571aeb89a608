/**
 * Values and list operations shared by every module: JavaScript's "maybe
 * undefined", and the array built-ins `find`/`findIndex` and `filter`.
 */
module Common {

  /** A value that may be absent (`undefined` or `null` in the source). */
  datatype Option<T> = None | Some(value: T)

  /** `xs.findIndex(p)`: the index of the first element satisfying `p`, or -1. */
  function FirstWhere<T>(xs: seq<T>, p: T -> bool): (r: int)
    ensures -1 <= r < |xs|
    ensures r == -1 <==> forall i | 0 <= i < |xs| :: !p(xs[i])
    ensures 0 <= r ==> p(xs[r]) && forall i | 0 <= i < r :: !p(xs[i])
  {
    if xs == [] then -1
    else if p(xs[0]) then 0
    else
      var r := FirstWhere(xs[1..], p);
      if r == -1 then -1 else r + 1
  }

  /** `xs.filter(p)`: the elements satisfying `p`, in their order. */
  function Filter<T(!new)>(xs: seq<T>, p: T -> bool): (r: seq<T>)
    ensures |r| <= |xs|
    ensures forall x :: x in r <==> x in xs && p(x)
  {
    if xs == [] then []
    else (if p(xs[0]) then [xs[0]] else []) + Filter(xs[1..], p)
  }

  /** `xs.filter(p)` keeps every occurrence of an element satisfying `p`, and none of the others. */
  lemma {:induction false} FilterMultiplicity<T(!new)>(xs: seq<T>, p: T -> bool)
    ensures forall x :: multiset(Filter(xs, p))[x] == if p(x) then multiset(xs)[x] else 0
  {
    if xs != [] {
      FilterMultiplicity(xs[1..], p);
      assert xs == [xs[0]] + xs[1..];
      assert multiset(xs) == multiset{xs[0]} + multiset(xs[1..]);
    }
  }

  /**
   * `xs.filter(p).find(q)` is the first element of `xs` satisfying both:
   * searching the filtered list finds the same element as searching with
   * the conjunction `pq`.
   */
  lemma {:induction false} FirstWhereFilter<T(!new)>(xs: seq<T>, p: T -> bool, q: T -> bool, pq: T -> bool)
    requires forall x :: pq(x) == (p(x) && q(x))
    ensures FirstWhere(Filter(xs, p), q) == -1 <==> FirstWhere(xs, pq) == -1
    ensures FirstWhere(xs, pq) != -1 ==> Filter(xs, p)[FirstWhere(Filter(xs, p), q)] == xs[FirstWhere(xs, pq)]
  {
    if xs != [] && !pq(xs[0]) {
      FirstWhereFilter(xs[1..], p, q, pq);
      FirstWhereFilterStep(xs, p, q, pq);
    }
  }

  /** The step of `FirstWhereFilter` past a first element that does not satisfy both conditions. */
  lemma FirstWhereFilterStep<T(!new)>(xs: seq<T>, p: T -> bool, q: T -> bool, pq: T -> bool)
    requires xs != [] && !pq(xs[0]) && pq(xs[0]) == (p(xs[0]) && q(xs[0]))
    requires FirstWhere(Filter(xs[1..], p), q) == -1 <==> FirstWhere(xs[1..], pq) == -1
    requires FirstWhere(xs[1..], pq) != -1 ==>
      Filter(xs[1..], p)[FirstWhere(Filter(xs[1..], p), q)] == xs[1..][FirstWhere(xs[1..], pq)]
    ensures FirstWhere(Filter(xs, p), q) == -1 <==> FirstWhere(xs, pq) == -1
    ensures FirstWhere(xs, pq) != -1 ==> Filter(xs, p)[FirstWhere(Filter(xs, p), q)] == xs[FirstWhere(xs, pq)]
  {
    var f, rest := Filter(xs, p), Filter(xs[1..], p);
    var j := FirstWhere(xs[1..], pq);
    var k := FirstWhere(rest, q);
    assert FirstWhere(xs, pq) == if j == -1 then -1 else j + 1;
    if p(xs[0]) {
      assert f == [xs[0]] + rest && f[1..] == rest;
      assert FirstWhere(f, q) == if k == -1 then -1 else k + 1;
      if j != -1 {
        assert f[k + 1] == rest[k] == xs[1..][j] == xs[j + 1];
      }
    } else {
      assert f == rest;
      if j != -1 {
        assert rest[k] == xs[1..][j] == xs[j + 1];
      }
    }
  }

  /** `a` is `b` with some elements left out and the rest kept in their order. */
  predicate IsSubsequence<T(==)>(a: seq<T>, b: seq<T>)
    decreases |b|
  {
    a == [] || (b != [] && ((a[0] == b[0] && IsSubsequence(a[1..], b[1..])) || IsSubsequence(a, b[1..])))
  }

  lemma {:induction false} SubsequenceConcat<T>(a1: seq<T>, b1: seq<T>, a2: seq<T>, b2: seq<T>)
    requires IsSubsequence(a1, b1) && IsSubsequence(a2, b2)
    ensures IsSubsequence(a1 + a2, b1 + b2)
    decreases |b1|
  {
    if b1 == [] {
      assert a1 == [] && a1 + a2 == a2 && b1 + b2 == b2;
    } else if a1 != [] && a1[0] == b1[0] && IsSubsequence(a1[1..], b1[1..]) {
      SubsequenceConcat(a1[1..], b1[1..], a2, b2);
      assert (a1 + a2)[1..] == a1[1..] + a2 && (b1 + b2)[1..] == b1[1..] + b2;
    } else {
      if a1 == [] {
        assert IsSubsequence(a1, b1[1..]);
      }
      SubsequenceConcat(a1, b1[1..], a2, b2);
      assert (b1 + b2)[1..] == b1[1..] + b2;
    }
  }

  /** Filtering keeps the kept elements in their order. */
  lemma {:induction false} FilterIsSubsequence<T(!new)>(xs: seq<T>, p: T -> bool)
    ensures IsSubsequence(Filter(xs, p), xs)
  {
    if xs != [] {
      FilterIsSubsequence(xs[1..], p);
      SubsequenceConcat(if p(xs[0]) then [xs[0]] else [], [xs[0]], Filter(xs[1..], p), xs[1..]);
      assert [xs[0]] + xs[1..] == xs;
    }
  }
}
