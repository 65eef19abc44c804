/**
 * Python's sorted() on the values the report writers order: an
 * insertion sort under a strict order, and the code-point order Python
 * uses on strings.  Elements neither of which is below the other may
 * come out in another order than Python's stable sort gives; the report
 * sorts distinct keys only, where the two agree.
 */
module Sorting {
  /** lt is a strict order: asymmetric and transitive. */
  ghost predicate StrictOrder<T(!new)>(lt: (T, T) -> bool)
  {
    (forall a, b :: lt(a, b) ==> !lt(b, a)) &&
    (forall a, b, c :: lt(a, b) && lt(b, c) ==> lt(a, c))
  }

  /** No element is below one in front of it. */
  predicate SortedBy<T>(xs: seq<T>, lt: (T, T) -> bool)
  {
    forall i, j :: 0 <= i < j < |xs| ==> !lt(xs[j], xs[i])
  }

  /** x placed after every element it is not below. */
  function Insert<T>(x: T, xs: seq<T>, lt: (T, T) -> bool): (r: seq<T>)
    ensures multiset(r) == multiset(xs) + multiset{x}
    ensures |r| == |xs| + 1
  {
    if xs == [] then [x]
    else if lt(x, xs[0]) then [x] + xs
    else
      assert xs == [xs[0]] + xs[1..];
      [xs[0]] + Insert(x, xs[1..], lt)
  }

  /** sorted(xs) under lt. */
  function Sort<T>(xs: seq<T>, lt: (T, T) -> bool): (r: seq<T>)
    ensures multiset(r) == multiset(xs)
    ensures |r| == |xs|
  {
    if xs == [] then []
    else
      assert xs == [xs[0]] + xs[1..];
      Insert(xs[0], Sort(xs[1..], lt), lt)
  }

  /** An element below none of a sorted sequence's elements may go in front of it. */
  lemma ConsSorted<T>(h: T, tail: seq<T>, lt: (T, T) -> bool)
    requires SortedBy(tail, lt)
    requires forall k :: 0 <= k < |tail| ==> !lt(tail[k], h)
    ensures SortedBy([h] + tail, lt)
  {
    var r := [h] + tail;
    forall i, j | 0 <= i < j < |r| ensures !lt(r[j], r[i]) {
      assert r[j] == tail[j - 1];
      if i > 0 {
        assert r[i] == tail[i - 1];
      }
    }
  }

  lemma {:induction false} InsertSorted<T(!new)>(x: T, xs: seq<T>, lt: (T, T) -> bool)
    requires StrictOrder(lt) && SortedBy(xs, lt)
    ensures SortedBy(Insert(x, xs, lt), lt)
    decreases |xs|
  {
    if xs == [] {
    } else if lt(x, xs[0]) {
      forall k | 0 <= k < |xs| ensures !lt(xs[k], x) {
        if k > 0 {
          assert !lt(xs[k], xs[0]);
        }
      }
      ConsSorted(x, xs, lt);
    } else {
      var tail := Insert(x, xs[1..], lt);
      InsertSorted(x, xs[1..], lt);
      forall k | 0 <= k < |tail| ensures !lt(tail[k], xs[0]) {
        var y := tail[k];
        assert y in multiset(tail);
        if y != x {
          assert y in multiset(xs[1..]);
          var j :| 0 <= j < |xs[1..]| && xs[1..][j] == y;
          assert xs[j + 1] == y;
        }
      }
      ConsSorted(xs[0], tail, lt);
    }
  }

  /** The result of Sort is sorted. */
  lemma {:induction false} SortSorted<T(!new)>(xs: seq<T>, lt: (T, T) -> bool)
    requires StrictOrder(lt)
    ensures SortedBy(Sort(xs, lt), lt)
    decreases |xs|
  {
    if xs != [] {
      SortSorted(xs[1..], lt);
      InsertSorted(xs[0], Sort(xs[1..], lt), lt);
    }
  }

  /** Python's < on strings: code point by code point, a proper prefix first. */
  function StrLess(a: string, b: string): bool
  {
    if a == [] then b != []
    else if b == [] then false
    else if a[0] != b[0] then a[0] < b[0]
    else StrLess(a[1..], b[1..])
  }

  lemma {:induction false} StrLessAsymmetric(a: string, b: string)
    ensures StrLess(a, b) ==> !StrLess(b, a)
    decreases |a|
  {
    if a != [] && b != [] && a[0] == b[0] {
      StrLessAsymmetric(a[1..], b[1..]);
    }
  }

  lemma {:induction false} StrLessTransitive(a: string, b: string, c: string)
    ensures StrLess(a, b) && StrLess(b, c) ==> StrLess(a, c)
    decreases |a|
  {
    if a != [] && b != [] && c != [] && a[0] == b[0] && b[0] == c[0] {
      StrLessTransitive(a[1..], b[1..], c[1..]);
    }
  }

  lemma {:induction false} StrLessTotal(a: string, b: string)
    ensures a != b ==> StrLess(a, b) || StrLess(b, a)
    decreases |a|
  {
    if a != [] && b != [] && a[0] == b[0] {
      StrLessTotal(a[1..], b[1..]);
      assert a == [a[0]] + a[1..] && b == [b[0]] + b[1..];
    }
  }

  /** Python's string order is a strict order. */
  lemma StrLessOrder()
    ensures StrictOrder(StrLess)
  {
    forall a, b ensures StrLess(a, b) ==> !StrLess(b, a) {
      StrLessAsymmetric(a, b);
    }
    forall a, b, c ensures StrLess(a, b) && StrLess(b, c) ==> StrLess(a, c) {
      StrLessTransitive(a, b, c);
    }
  }
}
