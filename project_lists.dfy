/**
 * The list helpers of the project manager: `byId`, `generateItemId` (a fold
 * over the list's ids) and the one-element `splice` used to remove items.
 */
module ProjectLists {
  import opened Common

  /** `byId(id)`: the predicate "this item's id is `id`", to hand to `find`/`findIndex`. */
  function ById<T, K(==)>(idOf: T -> K, id: K): T -> bool
  {
    x => idOf(x) == id
  }

  /** No two items share an id. */
  predicate UniqueIds<T, K(==)>(xs: seq<T>, idOf: T -> K)
  {
    forall i, j | 0 <= i < j < |xs| :: idOf(xs[i]) != idOf(xs[j])
  }

  /** Some item carries `id`. */
  predicate HasId<T, K(==)>(xs: seq<T>, idOf: T -> K, id: K)
  {
    exists i | 0 <= i < |xs| :: idOf(xs[i]) == id
  }

  /** The reduce step of `generateItemId` applied to `xs` from the accumulator `acc`. */
  function IdFold<T>(xs: seq<T>, idOf: T -> int, acc: int): (r: int)
    ensures acc <= r
    ensures forall i | 0 <= i < |xs| :: idOf(xs[i]) < r
    ensures r == acc || exists i | 0 <= i < |xs| :: r == idOf(xs[i]) + 1
  {
    if xs == [] then acc
    else
      var acc' := if idOf(xs[0]) >= acc then idOf(xs[0]) + 1 else acc;
      var r := IdFold(xs[1..], idOf, acc');
      assert forall i | 0 <= i < |xs[1..]| :: xs[1..][i] == xs[i + 1];
      r
  }

  /**
   * `generateItemId(list)`: a positive id above every id of the list. It is
   * the least such value: either 1, or one more than an id of the list.
   */
  function GenerateItemId<T>(xs: seq<T>, idOf: T -> int): (r: int)
    ensures 1 <= r
    ensures forall i | 0 <= i < |xs| :: idOf(xs[i]) < r
    ensures r == 1 || exists i | 0 <= i < |xs| :: r == idOf(xs[i]) + 1
    ensures !HasId(xs, idOf, r)
  {
    IdFold(xs, idOf, 1)
  }

  /** The position `splice(start, …)` acts on: a negative start counts from the end, clamped to the list. */
  function SpliceIndex(len: nat, start: int): (k: nat)
    ensures k <= len
    ensures 0 <= start <= len ==> k == start
    ensures -(len as int) <= start < 0 ==> k as int == len as int + start
  {
    if start < 0 then (if len + start < 0 then 0 else len + start)
    else if start > len then len
    else start
  }

  /** `xs.splice(start, 1)` for its effect on `xs`: the element at the spliced position removed, if there is one. */
  function SpliceOut<T>(xs: seq<T>, start: int): (r: seq<T>)
  {
    var k := SpliceIndex(|xs|, start);
    if k < |xs| then xs[..k] + xs[k + 1..] else xs
  }

  /** Removing the element found at `i` leaves the others in order and drops exactly that element. */
  lemma SpliceOutFound<T>(xs: seq<T>, i: int)
    requires 0 <= i < |xs|
    ensures |SpliceOut(xs, i)| == |xs| - 1
    ensures forall j | 0 <= j < i :: SpliceOut(xs, i)[j] == xs[j]
    ensures forall j | i <= j < |xs| - 1 :: SpliceOut(xs, i)[j] == xs[j + 1]
    ensures multiset(SpliceOut(xs, i)) + multiset{xs[i]} == multiset(xs)
  {
    assert xs == xs[..i] + [xs[i]] + xs[i + 1..];
  }

  /** One position of the list left by removing the element at `k`. */
  lemma SpliceOutAt<T>(xs: seq<T>, k: int, i: int)
    requires 0 <= k < |xs| && 0 <= i < |xs| - 1
    ensures SpliceOut(xs, k)[i] == xs[if i < k then i else i + 1]
  {
    SpliceOutFound(xs, k);
  }

  /**
   * `splice(findIndex(...), 1)` without a check for -1: when no item matches,
   * the LAST item of a non-empty list is removed.
   */
  lemma SpliceOutMissingDropsLast<T>(xs: seq<T>, p: T -> bool)
    requires FirstWhere(xs, p) == -1 && xs != []
    ensures SpliceOut(xs, FirstWhere(xs, p)) == xs[..|xs| - 1]
  {
  }

  /** Removing one element keeps ids unique and keeps every remaining element. */
  lemma SpliceOutKeepsUnique<T, K>(xs: seq<T>, idOf: T -> K, start: int)
    ensures UniqueIds(xs, idOf) ==> UniqueIds(SpliceOut(xs, start), idOf)
    ensures forall x | x in SpliceOut(xs, start) :: x in xs
  {
    var k := SpliceIndex(|xs|, start);
    if k < |xs| && UniqueIds(xs, idOf) {
      SpliceOutFound(xs, k);
      var r := SpliceOut(xs, start);
      forall i, j | 0 <= i < j < |r|
        ensures idOf(r[i]) != idOf(r[j])
      {
        SpliceOutAt(xs, k, i);
        SpliceOutAt(xs, k, j);
      }
    }
  }

  lemma {:induction false} SubsequenceOfSelf<T>(xs: seq<T>)
    ensures IsSubsequence(xs, xs)
  {
    if xs != [] {
      SubsequenceOfSelf(xs[1..]);
    }
  }

  /** Removing one element keeps the others in order. */
  lemma SpliceOutIsSubsequence<T>(xs: seq<T>, start: int)
    ensures IsSubsequence(SpliceOut(xs, start), xs)
  {
    var k := SpliceIndex(|xs|, start);
    if k < |xs| {
      SubsequenceOfSelf(xs[..k]);
      SubsequenceOfSelf(xs[k + 1..]);
      assert IsSubsequence(xs[k + 1..], [xs[k]] + xs[k + 1..]) by {
        assert ([xs[k]] + xs[k + 1..])[1..] == xs[k + 1..];
      }
      SubsequenceConcat(xs[..k], xs[..k], xs[k + 1..], [xs[k]] + xs[k + 1..]);
      assert xs[..k] + ([xs[k]] + xs[k + 1..]) == xs;
    } else {
      SubsequenceOfSelf(xs);
    }
  }

  /** Moving the element at `i` to the front keeps the same elements and keeps ids unique. */
  lemma MoveToFrontKeeps<T, K>(xs: seq<T>, idOf: T -> K, i: int)
    requires 0 <= i < |xs|
    ensures multiset([xs[i]] + SpliceOut(xs, i)) == multiset(xs)
    ensures UniqueIds(xs, idOf) ==> UniqueIds([xs[i]] + SpliceOut(xs, i), idOf)
  {
    SpliceOutFound(xs, i);
    var rest := SpliceOut(xs, i);
    var r := [xs[i]] + rest;
    if UniqueIds(xs, idOf) {
      forall a, b | 0 <= a < b < |r|
        ensures idOf(r[a]) != idOf(r[b])
      {
        SpliceOutAt(xs, i, b - 1);
        if a > 0 {
          SpliceOutAt(xs, i, a - 1);
        }
      }
    }
  }

  /**
   * With unique ids, removing the element found by `id` leaves no element
   * carrying it (when none carries it, whatever is removed, none is left).
   */
  lemma SpliceOutRemovesId<T, K>(xs: seq<T>, idOf: T -> K, id: K)
    requires UniqueIds(xs, idOf)
    ensures !HasId(SpliceOut(xs, FirstWhere(xs, ById(idOf, id))), idOf, id)
  {
    var i := FirstWhere(xs, ById(idOf, id));
    var r := SpliceOut(xs, i);
    if i >= 0 {
      forall j | 0 <= j < |r|
        ensures idOf(r[j]) != id
      {
        SpliceOutAt(xs, i, j);
      }
    } else {
      SpliceOutKeepsUnique(xs, idOf, i);
      forall j | 0 <= j < |r|
        ensures idOf(r[j]) != id
      {
        assert r[j] in xs;
      }
    }
  }
}
