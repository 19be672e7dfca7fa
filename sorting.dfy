/** The ordering of `findMany({ orderBy })`, as an insertion sort under a total relation. */
module Sorting {

  /** `le` relates every pair one way or the other. */
  ghost predicate Total<T(!new)>(le: (T, T) -> bool) {
    forall a, b :: le(a, b) || le(b, a)
  }

  /** Every neighbouring pair is in order. */
  predicate Sorted<T>(s: seq<T>, le: (T, T) -> bool) {
    forall i :: 0 < i < |s| ==> le(s[i - 1], s[i])
  }

  function Insert<T(!new)>(x: T, s: seq<T>, le: (T, T) -> bool): (r: seq<T>)
    requires Total(le)
    ensures multiset(r) == multiset(s) + multiset{x}
    ensures |r| == |s| + 1 && forall y :: y in r <==> y == x || y in s
    ensures r[0] == x || (s != [] && r[0] == s[0])
    ensures Sorted(s, le) ==> Sorted(r, le)
  {
    if s == [] || le(x, s[0]) then [x] + s
    else
      var rest := Insert(x, s[1..], le);
      assert s == [s[0]] + s[1..];
      assert Sorted(s, le) ==> Sorted([s[0]] + rest, le) by {
        if Sorted(s, le) {
          assert le(s[0], rest[0]);
          SortedCons(s[0], rest, le);
        }
      }
      [s[0]] + rest
  }

  /** A head in order with the first of a sorted tail keeps it sorted. */
  lemma SortedCons<T>(a: T, t: seq<T>, le: (T, T) -> bool)
    requires Sorted(t, le) && (t == [] || le(a, t[0]))
    ensures Sorted([a] + t, le)
  {
    var r := [a] + t;
    forall i | 0 < i < |r|
      ensures le(r[i - 1], r[i])
    {
      if i > 1 {
        assert r[i - 1] == t[i - 2] && r[i] == t[i - 1];
      }
    }
  }

  /** The rows of `s` rearranged in `le` order: the same rows, each as often as before. */
  function SortBy<T(!new)>(s: seq<T>, le: (T, T) -> bool): (r: seq<T>)
    requires Total(le)
    ensures Sorted(r, le)
    ensures multiset(r) == multiset(s)
    ensures |r| == |s| && forall x :: x in r <==> x in s
  {
    if s == [] then []
    else
      assert s == [s[0]] + s[1..];
      Insert(s[0], SortBy(s[1..], le), le)
  }
}
