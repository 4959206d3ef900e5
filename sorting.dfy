/**
 * ORDER BY / OrderBy / OrderByDescending over in-memory rows: a stable
 * insertion sort by a total preorder `le` ("a may come before b"), with the
 * facts the ranking pipelines need — the result is a permutation of the input,
 * it is ordered, and a prefix of it keeps the best rows.
 */
module Sorting {

  /** `le` relates every pair one way or the other, and is transitive. */
  ghost predicate TotalPreorder<T(!new)>(le: (T, T) -> bool) {
    && (forall a, b :: le(a, b) || le(b, a))
    && (forall a, b, c :: le(a, b) && le(b, c) ==> le(a, c))
  }

  /** Every element may come before every later one. */
  ghost predicate SortedBy<T>(s: seq<T>, le: (T, T) -> bool) {
    forall i, j :: 0 <= i < j < |s| ==> le(s[i], s[j])
  }

  /** `x` placed before the first element it may precede. */
  function Insert<T>(x: T, s: seq<T>, le: (T, T) -> bool): (r: seq<T>)
    ensures multiset(r) == multiset(s) + multiset{x}
  {
    if s == [] then [x]
    else if le(x, s[0]) then [x] + s
    else
      assert s == [s[0]] + s[1..];
      [s[0]] + Insert(x, s[1..], le)
  }

  /** The rows of `s` ordered by `le`; rows that tie keep their order in `s`. */
  function SortBy<T>(s: seq<T>, le: (T, T) -> bool): (r: seq<T>)
    ensures multiset(r) == multiset(s)
    ensures |r| == |s|
  {
    if s == [] then []
    else
      assert s == [s[0]] + s[1..];
      Insert(s[0], SortBy(s[1..], le), le)
  }

  /** A row that may precede every row of an ordered sequence can be put in front of it. */
  lemma ConsSorted<T>(h: T, t: seq<T>, le: (T, T) -> bool)
    requires SortedBy(t, le)
    requires forall k :: 0 <= k < |t| ==> le(h, t[k])
    ensures SortedBy([h] + t, le)
  {
    var r := [h] + t;
    forall i, j | 0 <= i < j < |r| ensures le(r[i], r[j]) {
      assert r[j] == t[j - 1];
      if i > 0 {
        assert r[i] == t[i - 1];
      }
    }
  }

  /** Every row of `s[1..]` with `x` inserted may follow the head of `s`. */
  lemma HeadPrecedesInsert<T(!new)>(x: T, s: seq<T>, le: (T, T) -> bool)
    requires SortedBy(s, le) && s != [] && le(s[0], x)
    ensures forall k :: 0 <= k < |Insert(x, s[1..], le)| ==> le(s[0], Insert(x, s[1..], le)[k])
  {
    var tail := s[1..];
    var rest := Insert(x, tail, le);
    forall k | 0 <= k < |rest| ensures le(s[0], rest[k]) {
      assert rest[k] in multiset(rest);
      if rest[k] != x {
        assert rest[k] in multiset(tail);
        var m :| 0 <= m < |tail| && tail[m] == rest[k];
        assert s[m + 1] == rest[k];
      }
    }
  }

  lemma {:induction false} InsertSorted<T(!new)>(x: T, s: seq<T>, le: (T, T) -> bool)
    requires TotalPreorder(le) && SortedBy(s, le)
    ensures SortedBy(Insert(x, s, le), le)
  {
    if s == [] {
    } else if !le(x, s[0]) {
      var tail := s[1..];
      assert SortedBy(tail, le) by {
        forall i, j | 0 <= i < j < |tail| ensures le(tail[i], tail[j]) {
          assert tail[i] == s[i + 1] && tail[j] == s[j + 1];
        }
      }
      InsertSorted(x, tail, le);
      HeadPrecedesInsert(x, s, le);
      ConsSorted(s[0], Insert(x, tail, le), le);
    } else {
      forall k | 0 <= k < |s| ensures le(x, s[k]) {
        if k > 0 {
          assert le(s[0], s[k]);
        }
      }
      ConsSorted(x, s, le);
    }
  }

  /** Under a total preorder the result of SortBy is ordered. */
  lemma {:induction false} SortBySorted<T(!new)>(s: seq<T>, le: (T, T) -> bool)
    requires TotalPreorder(le)
    ensures SortedBy(SortBy(s, le), le)
  {
    if s != [] {
      SortBySorted(s[1..], le);
      InsertSorted(s[0], SortBy(s[1..], le), le);
    }
  }

  /** A prefix of an ordered sequence is ordered. */
  lemma PrefixSorted<T>(s: seq<T>, n: nat, le: (T, T) -> bool)
    requires SortedBy(s, le) && n <= |s|
    ensures SortedBy(s[..n], le)
  {
  }

  /**
   * Cutting an ordered sequence after `n` rows keeps the best ones: any row
   * that was cut off may come after every row that was kept.
   */
  lemma PrefixKeepsBest<T>(s: seq<T>, n: nat, le: (T, T) -> bool, x: T)
    requires SortedBy(s, le) && n <= |s|
    requires x in s && x !in s[..n]
    ensures forall i :: 0 <= i < n ==> le(s[i], x)
  {
    var k :| 0 <= k < |s| && s[k] == x;
    assert forall i :: 0 <= i < n ==> s[..n][i] == s[i];
  }

  /**
   * ORDER BY ... LIMIT n: the first `n` rows of `s` in `le` order. The rows
   * come from `s`, are ordered, and every row left out may come after every
   * row kept (so rows are left out only when all `n` places are taken).
   */
  function TopBy<T(!new)>(s: seq<T>, le: (T, T) -> bool, n: nat): (r: seq<T>)
    requires TotalPreorder(le)
    ensures |r| == if |s| < n then |s| else n
    ensures forall x :: x in r ==> x in s
    ensures SortedBy(r, le)
    ensures forall x :: x in s && x !in r ==> |r| == n && forall i :: 0 <= i < |r| ==> le(r[i], x)
  {
    var sorted := SortBy(s, le);
    SortBySorted(s, le);
    var r := if |sorted| < n then sorted else sorted[..n];
    PrefixSorted(sorted, |r|, le);
    forall x | x in r ensures x in s {
      assert x in multiset(sorted);
    }
    forall x | x in s && x !in r ensures |r| == n && forall i :: 0 <= i < |r| ==> le(r[i], x) {
      assert x in multiset(sorted);
      PrefixKeepsBest(sorted, |r|, le, x);
    }
    r
  }

  /** TopBy keeps each row at most as often as the input holds it: no row is duplicated. */
  lemma TopByKeepsMultiplicity<T(!new)>(s: seq<T>, le: (T, T) -> bool, n: nat)
    requires TotalPreorder(le)
    ensures multiset(TopBy(s, le, n)) <= multiset(s)
  {
    var sorted := SortBy(s, le);
    var r := TopBy(s, le, n);
    assert r == if |sorted| < n then sorted else sorted[..n];
    assert sorted == r + sorted[|r|..];
  }
}
