/** Ranking of values by how often they occur, as pandas' `value_counts().index`
    produces it: every distinct value once, most frequent first. Both pipelines
    rank the topics of incorrectly answered questions this way. */
module Ranking {

  /** Number of occurrences of `x` in `xs`. */
  function Count<T(==)>(xs: seq<T>, x: T): (n: nat)
    ensures n <= |xs|
    ensures n > 0 <==> x in xs
  {
    if xs == [] then 0
    else (if xs[0] == x then 1 else 0) + Count(xs[1..], x)
  }

  predicate NoDuplicates<T(==)>(s: seq<T>)
  {
    forall i, j :: 0 <= i < j < |s| ==> s[i] != s[j]
  }

  /** `s` is in non-increasing order of the number of occurrences in `xs`. */
  predicate ByCountDesc<T(==)>(s: seq<T>, xs: seq<T>)
  {
    forall i, j :: 0 <= i < j < |s| ==> Count(xs, s[i]) >= Count(xs, s[j])
  }

  /** The distinct values of `xs`, in order of first occurrence. */
  function Distinct<T(==,!new)>(xs: seq<T>): (r: seq<T>)
    ensures NoDuplicates(r)
    ensures forall x :: x in r <==> x in xs
  {
    if xs == [] then []
    else
      var init, last := xs[..|xs| - 1], xs[|xs| - 1];
      assert xs == init + [last];
      var rest := Distinct(init);
      if last in rest then rest else rest + [last]
  }

  /** Inserts `x` into `s` before the first element that occurs no more often in `xs`. */
  function InsertByCount<T(==,!new)>(x: T, s: seq<T>, xs: seq<T>): (r: seq<T>)
    ensures |r| == |s| + 1
    ensures forall y :: y in r <==> y == x || y in s
    ensures NoDuplicates(s) && x !in s ==> NoDuplicates(r)
  {
    if s == [] then [x]
    else if Count(xs, x) >= Count(xs, s[0]) then [x] + s
    else
      var rest := InsertByCount(x, s[1..], xs);
      assert s[0] !in s[1..] && x != s[0] ==> s[0] !in rest;
      [s[0]] + rest
  }

  /** Insertion keeps a list ordered by count ordered. */
  lemma {:induction false} InsertByCountOrdered<T(!new)>(x: T, s: seq<T>, xs: seq<T>)
    requires ByCountDesc(s, xs)
    ensures ByCountDesc(InsertByCount(x, s, xs), xs)
  {
    if s != [] && Count(xs, x) < Count(xs, s[0]) {
      var rest := InsertByCount(x, s[1..], xs);
      assert forall i :: 0 <= i < |s| - 1 ==> s[1..][i] == s[i + 1];
      InsertByCountOrdered(x, s[1..], xs);
      forall k | 0 <= k < |rest| ensures Count(xs, s[0]) >= Count(xs, rest[k]) {
        assert rest[k] in rest;
        if rest[k] != x {
          var m :| 0 <= m < |s[1..]| && s[1..][m] == rest[k];
        }
      }
      assert forall k :: 0 < k < |rest| + 1 ==> ([s[0]] + rest)[k] == rest[k - 1];
    } else if s != [] {
      assert forall k :: 0 < k < |s| + 1 ==> ([x] + s)[k] == s[k - 1];
    }
  }

  /** Insertion sort of `s` into non-increasing order of occurrence in `xs`. */
  function SortByCount<T(==,!new)>(s: seq<T>, xs: seq<T>): (r: seq<T>)
    ensures |r| == |s|
    ensures forall y :: y in r <==> y in s
    ensures NoDuplicates(s) ==> NoDuplicates(r)
    ensures ByCountDesc(r, xs)
  {
    if s == [] then []
    else
      var rest := SortByCount(s[1..], xs);
      InsertByCountOrdered(s[0], rest, xs);
      InsertByCount(s[0], rest, xs)
  }

  /** Each distinct value of `xs` exactly once, most frequent first. Among values
      with equal counts the earlier first occurrence comes first here; the
      source leaves that order to pandas. */
  function RankByFrequency<T(==,!new)>(xs: seq<T>): (r: seq<T>)
    ensures |r| == |Distinct(xs)|
    ensures NoDuplicates(r)
    ensures forall y :: y in r <==> y in xs
    ensures ByCountDesc(r, xs)
  {
    SortByCount(Distinct(xs), xs)
  }

  /** The first `n` elements, or all of them when there are fewer (`s[:n]`). */
  function Take<T>(s: seq<T>, n: nat): (r: seq<T>)
    ensures |r| == if |s| <= n then |s| else n
    ensures r == s[..|r|]
  {
    if |s| <= n then s else s[..n]
  }

  /** Cutting a duplicate-free list ordered by count keeps the most frequent
      values: every value left out occurs no more often than each value kept,
      and the kept values stay distinct and ordered. */
  lemma TakeKeepsTop<T>(s: seq<T>, xs: seq<T>, n: nat)
    requires NoDuplicates(s) && ByCountDesc(s, xs)
    ensures NoDuplicates(Take(s, n)) && ByCountDesc(Take(s, n), xs)
    ensures forall y :: y in Take(s, n) ==> y in s
    ensures forall i, y :: 0 <= i < |Take(s, n)| && y in s && y !in Take(s, n) ==>
              Count(xs, Take(s, n)[i]) >= Count(xs, y)
  {
    var r := Take(s, n);
    forall i, y | 0 <= i < |r| && y in s && y !in r ensures Count(xs, r[i]) >= Count(xs, y) {
      var j :| 0 <= j < |s| && s[j] == y;
      assert r[i] == s[i];
    }
  }
}
