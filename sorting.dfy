/**
 * Python's `sorted` and `list.sort`: a stable sort by a total preorder, and
 * the order Python uses on strings (code point by code point).
 */
module Sorting {

  /** `le` is total and transitive, as a sort key comparison is. */
  ghost predicate TotalPreorder<T(!new)>(le: (T, T) -> bool)
  {
    (forall a, b :: le(a, b) || le(b, a))
    && (forall a, b, c :: le(a, b) && le(b, c) ==> le(a, c))
  }

  predicate SortedBy<T>(xs: seq<T>, le: (T, T) -> bool)
  {
    forall i, j :: 0 <= i < j < |xs| ==> le(xs[i], xs[j])
  }

  /** `x` placed before the first element it does not have to follow. */
  function InsertBy<T>(x: T, xs: seq<T>, le: (T, T) -> bool): (r: seq<T>)
    ensures multiset(r) == multiset(xs) + multiset{x}
    ensures |r| == |xs| + 1
  {
    if xs == [] || le(x, xs[0]) then [x] + xs
    else
      assert xs == [xs[0]] + xs[1..];
      [xs[0]] + InsertBy(x, xs[1..], le)
  }

  lemma {:induction false} InsertBySorted<T(!new)>(x: T, xs: seq<T>, le: (T, T) -> bool)
    requires TotalPreorder(le) && SortedBy(xs, le)
    ensures SortedBy(InsertBy(x, xs, le), le)
    ensures forall y <- InsertBy(x, xs, le) :: y == x || y in xs
  {
    if xs == [] || le(x, xs[0]) {
    } else {
      InsertBySorted(x, xs[1..], le);
      var r := InsertBy(x, xs, le);
      assert r == [xs[0]] + InsertBy(x, xs[1..], le);
      forall i, j | 0 <= i < j < |r|
        ensures le(r[i], r[j])
      {
        if i == 0 {
          assert r[j] == x || r[j] in xs[1..];
        }
      }
    }
  }

  /** A stable sort: equal elements keep their order. */
  function SortBy<T>(xs: seq<T>, le: (T, T) -> bool): (r: seq<T>)
    ensures multiset(r) == multiset(xs)
    ensures |r| == |xs|
  {
    if xs == [] then []
    else
      assert xs == [xs[0]] + xs[1..];
      InsertBy(xs[0], SortBy(xs[1..], le), le)
  }

  lemma {:induction false} SortBySorted<T(!new)>(xs: seq<T>, le: (T, T) -> bool)
    requires TotalPreorder(le)
    ensures SortedBy(SortBy(xs, le), le)
  {
    if xs != [] {
      SortBySorted(xs[1..], le);
      InsertBySorted(xs[0], SortBy(xs[1..], le), le);
    }
  }

  /** Python's `<=` on strings: lexicographic by code point. */
  predicate StrLe(a: string, b: string)
  {
    a == [] || (b != [] && (a[0] < b[0] || (a[0] == b[0] && StrLe(a[1..], b[1..]))))
  }

  lemma {:induction false} StrLeTotal(a: string, b: string)
    ensures StrLe(a, b) || StrLe(b, a)
  {
    if a != [] && b != [] && a[0] == b[0] {
      StrLeTotal(a[1..], b[1..]);
    }
  }

  lemma {:induction false} StrLeTransitive(a: string, b: string, c: string)
    requires StrLe(a, b) && StrLe(b, c)
    ensures StrLe(a, c)
  {
    if a != [] && b != [] && c != [] && a[0] == b[0] && b[0] == c[0] {
      StrLeTransitive(a[1..], b[1..], c[1..]);
    }
  }

  lemma StrLeIsTotalPreorder()
    ensures TotalPreorder((a: string, b: string) => StrLe(a, b))
  {
    forall a: string, b: string
      ensures StrLe(a, b) || StrLe(b, a)
    {
      StrLeTotal(a, b);
    }
    forall a: string, b: string, c: string | StrLe(a, b) && StrLe(b, c)
      ensures StrLe(a, c)
    {
      StrLeTransitive(a, b, c);
    }
  }

  /** `sorted(strings)`. */
  function SortStrings(xs: seq<string>): (r: seq<string>)
    ensures multiset(r) == multiset(xs)
  {
    SortBy(xs, (a: string, b: string) => StrLe(a, b))
  }

  lemma SortStringsSorted(xs: seq<string>)
    ensures forall i, j :: 0 <= i < j < |SortStrings(xs)| ==> StrLe(SortStrings(xs)[i], SortStrings(xs)[j])
  {
    StrLeIsTotalPreorder();
    SortBySorted(xs, (a: string, b: string) => StrLe(a, b));
  }
}
