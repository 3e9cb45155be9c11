/** `ORDER BY ... LIMIT k` over a list of rows: a sort by a total preorder
    (`le(a, b)`: `a` may come before `b`), then the first `k` rows. SQLite
    leaves the order of tied rows open; this sort keeps storage order among
    them, and the contracts promise only what SQL promises. */
module Ranking {

  ghost predicate TotalPreorder<T(!new)>(le: (T, T) -> bool) {
    && (forall a, b :: le(a, b) || le(b, a))
    && (forall a, b, c :: le(a, b) && le(b, c) ==> le(a, c))
  }

  predicate Sorted<T>(s: seq<T>, le: (T, T) -> bool) {
    forall i, j :: 0 <= i < j < |s| ==> le(s[i], s[j])
  }

  /** Insert `x` before the first element it may precede. */
  function Insert<T(!new)>(x: T, s: seq<T>, le: (T, T) -> bool): (r: seq<T>)
    requires TotalPreorder(le)
    requires Sorted(s, le)
    ensures multiset(r) == multiset(s) + multiset{x}
    ensures Sorted(r, le)
    decreases |s|
  {
    if |s| == 0 then [x]
    else if le(x, s[0]) then [x] + s
    else
      var rest := Insert(x, s[1..], le);
      assert multiset(s) == multiset{s[0]} + multiset(s[1..]) by {
        assert s == [s[0]] + s[1..];
      }
      forall y | y in rest ensures le(s[0], y) {
        assert y in multiset(rest);
        if y != x {
          assert y in multiset(s[1..]);
          var j :| 0 <= j < |s[1..]| && s[1..][j] == y;
          assert s[j + 1] == y;
        }
      }
      [s[0]] + rest
  }

  /** Insertion sort: a sorted permutation of `s`. */
  function Sort<T(!new)>(s: seq<T>, le: (T, T) -> bool): (r: seq<T>)
    requires TotalPreorder(le)
    ensures multiset(r) == multiset(s)
    ensures Sorted(r, le)
    decreases |s|
  {
    if |s| == 0 then []
    else
      assert s == [s[0]] + s[1..];
      Insert(s[0], Sort(s[1..], le), le)
  }

  /** An element of which the first `n` rows of a sorted list hold fewer
      copies than the list does ranks no higher than any of those rows. */
  lemma CutIsOrdered<T(!new)>(sorted: seq<T>, n: nat, y: T, le: (T, T) -> bool)
    requires n <= |sorted| && Sorted(sorted, le)
    requires multiset(sorted[..n])[y] < multiset(sorted)[y]
    ensures forall i :: 0 <= i < n ==> le(sorted[i], y)
  {
    SplitMultiset(sorted, n);
    assert y in multiset(sorted[n..]);
    var j :| 0 <= j < |sorted[n..]| && sorted[n..][j] == y;
    assert sorted[n + j] == y;
  }

  lemma SplitMultiset<T>(s: seq<T>, n: nat)
    requires n <= |s|
    ensures multiset(s) == multiset(s[..n]) + multiset(s[n..])
  {
    assert s == s[..n] + s[n..];
  }

  /** `ORDER BY ... LIMIT k`: the first `k` rows of the sorted table. */
  function TopK<T(!new)>(s: seq<T>, k: nat, le: (T, T) -> bool): (r: seq<T>)
    requires TotalPreorder(le)
    ensures |r| == if |s| < k then |s| else k
    ensures Sorted(r, le)
    ensures multiset(r) <= multiset(s)
    ensures |r| < k ==> multiset(r) == multiset(s)
    ensures forall y :: y in s && multiset(r)[y] < multiset(s)[y] ==>
      forall i :: 0 <= i < |r| ==> le(r[i], y)
  {
    var sorted := Sort(s, le);
    var n := if |s| < k then |s| else k;
    SplitMultiset(sorted, n);
    forall y | y in s && multiset(sorted[..n])[y] < multiset(s)[y]
      ensures forall i :: 0 <= i < n ==> le(sorted[i], y)
    {
      CutIsOrdered(sorted, n, y, le);
    }
    sorted[..n]
  }
}
