/**
 * The LINQ and SQL building blocks the queries are made of: Where (Filter),
 * FirstOrDefault (IndexWhere), Count, Take and removal of rows, together with
 * the facts about them that the table invariants rely on.
 */
module Seqs {
  import opened Wrappers

  /** Where: the elements of `s` that satisfy `p`, in their original order. */
  function Filter<T(!new)>(s: seq<T>, p: T -> bool): (r: seq<T>)
    ensures |r| <= |s|
    ensures forall x :: x in r <==> x in s && p(x)
    ensures forall i :: 0 <= i < |r| ==> p(r[i])
  {
    if s == [] then []
    else
      var rest := Filter(s[1..], p);
      assert forall x :: x in s <==> x == s[0] || x in s[1..];
      if p(s[0]) then [s[0]] + rest else rest
  }

  /** Count(predicate): how many elements satisfy `p`. */
  function Count<T>(s: seq<T>, p: T -> bool): (n: nat)
    ensures n <= |s|
    ensures n == 0 <==> forall i :: 0 <= i < |s| ==> !p(s[i])
  {
    if s == [] then 0
    else (if p(s[0]) then 1 else 0) + Count(s[1..], p)
  }

  /** The number of matching elements is the length of the filtered sequence. */
  lemma {:induction false} CountIsFilterLength<T(!new)>(s: seq<T>, p: T -> bool)
    ensures Count(s, p) == |Filter(s, p)|
  {
    if s != [] {
      CountIsFilterLength(s[1..], p);
    }
  }

  /** FirstOrDefault(predicate): the index of the first element satisfying `p`. */
  function IndexWhere<T>(s: seq<T>, p: T -> bool): (r: Option<nat>)
    ensures r.None? <==> forall i :: 0 <= i < |s| ==> !p(s[i])
    ensures r.Some? ==> r.value < |s| && p(s[r.value])
    ensures r.Some? ==> forall j :: 0 <= j < r.value ==> !p(s[j])
  {
    if s == [] then None
    else if p(s[0]) then Some(0)
    else
      match IndexWhere(s[1..], p)
      case None => None
      case Some(i) => Some(i + 1)
  }

  /** Replacing the first match by another match leaves the first match where it was. */
  lemma IndexWhereUpdate<T>(s: seq<T>, p: T -> bool, k: nat, x: T)
    requires IndexWhere(s, p) == Some(k) && p(x)
    ensures IndexWhere(s[k := x], p) == Some(k)
  {
    assert (s[k := x])[k] == x;
    assert forall j :: 0 <= j < k ==> (s[k := x])[j] == s[j];
  }

  /** Appending a first match after a prefix without one finds the appended element. */
  lemma IndexWhereAppend<T>(s: seq<T>, p: T -> bool, x: T)
    requires IndexWhere(s, p).None? && p(x)
    ensures IndexWhere(s + [x], p) == Some(|s|)
  {
    assert (s + [x])[|s|] == x;
    assert forall j :: 0 <= j < |s| ==> (s + [x])[j] == s[j];
  }

  /** Any(predicate). */
  predicate Any<T>(s: seq<T>, p: T -> bool) {
    exists i :: 0 <= i < |s| && p(s[i])
  }

  /** Take(n): the first `n` elements, or all of them when there are fewer. */
  function Take<T>(s: seq<T>, n: nat): (r: seq<T>)
    ensures |r| == if |s| < n then |s| else n
    ensures r == s[..|r|]
  {
    if |s| < n then s else s[..n]
  }

  /** Select: `f` applied to every element, in order. */
  function MapSeq<T, U>(s: seq<T>, f: T -> U): (r: seq<U>)
    ensures |r| == |s|
    ensures forall i :: 0 <= i < |s| ==> r[i] == f(s[i])
  {
    seq(|s|, i requires 0 <= i < |s| => f(s[i]))
  }

  /** Where followed by Select: `f` of every element satisfying `p`, in order. */
  function MapFilter<T(!new), U>(s: seq<T>, p: T -> bool, f: T -> U): (r: seq<U>)
    ensures |r| == Count(s, p)
    ensures forall x :: x in s && p(x) ==> f(x) in r
    ensures forall y :: y in r ==> exists x :: x in s && p(x) && y == f(x)
  {
    var kept := Filter(s, p);
    CountIsFilterLength(s, p);
    var r := MapSeq(kept, f);
    forall x | x in s && p(x) ensures f(x) in r {
      var i :| 0 <= i < |kept| && kept[i] == x;
      assert r[i] == f(x);
    }
    r
  }

  /** The elements of `s` not in `seen`, each once, in order of first occurrence. */
  function DistinctFrom<T(==,!new)>(s: seq<T>, seen: set<T>): (r: seq<T>)
    ensures forall x :: x in r <==> x in s && x !in seen
    ensures forall i, j :: 0 <= i < j < |r| ==> r[i] != r[j]
  {
    if s == [] then []
    else if s[0] in seen then
      assert forall x :: x in s && x !in seen ==> x in s[1..];
      DistinctFrom(s[1..], seen)
    else
      assert forall x :: x in s <==> x == s[0] || x in s[1..];
      [s[0]] + DistinctFrom(s[1..], seen + {s[0]})
  }

  /** Distinct: every element of `s` once, in order of first occurrence. */
  function Distinct<T(==,!new)>(s: seq<T>): (r: seq<T>)
    ensures forall x :: x in r <==> x in s
    ensures forall i, j :: 0 <= i < j < |r| ==> r[i] != r[j]
  {
    DistinctFrom(s, {})
  }

  /** SelectMany: the concatenation of `f` applied to every element. */
  function FlatMap<T, U(!new)>(s: seq<T>, f: T -> seq<U>): (r: seq<U>)
    ensures forall y :: y in r <==> exists i :: 0 <= i < |s| && y in f(s[i])
  {
    if s == [] then []
    else
      var rest := FlatMap(s[1..], f);
      assert forall i :: 1 <= i < |s| ==> s[i] == s[1..][i - 1];
      f(s[0]) + rest
  }

  /** The row at index `i` taken out of the table. */
  function RemoveAt<T>(s: seq<T>, i: nat): (r: seq<T>)
    requires i < |s|
    ensures |r| == |s| - 1
    ensures forall j :: 0 <= j < i ==> r[j] == s[j]
    ensures forall j :: i <= j < |r| ==> r[j] == s[j + 1]
  {
    s[..i] + s[i + 1..]
  }

  /** `rel` holds between every element and every later one. */
  ghost predicate Pairwise<T>(s: seq<T>, rel: (T, T) -> bool) {
    forall i, j :: 0 <= i < j < |s| ==> rel(s[i], s[j])
  }

  /** Removing rows by a predicate keeps every pairwise invariant. */
  lemma {:induction false} FilterPairwise<T(!new)>(s: seq<T>, p: T -> bool, rel: (T, T) -> bool)
    requires Pairwise(s, rel)
    ensures Pairwise(Filter(s, p), rel)
  {
    if s != [] {
      var tail := s[1..];
      assert Pairwise(tail, rel) by {
        forall i, j | 0 <= i < j < |tail| ensures rel(tail[i], tail[j]) {
          assert tail[i] == s[i + 1] && tail[j] == s[j + 1];
        }
      }
      FilterPairwise(tail, p, rel);
      var rest := Filter(tail, p);
      if p(s[0]) {
        forall j | 0 <= j < |rest| ensures rel(s[0], rest[j]) {
          assert rest[j] in tail;
          var k :| 0 <= k < |tail| && tail[k] == rest[j];
          assert s[k + 1] == rest[j];
        }
        var r := [s[0]] + rest;
        forall i, j | 0 <= i < j < |r| ensures rel(r[i], r[j]) {
          if i == 0 {
            assert r[j] == rest[j - 1];
          } else {
            assert r[i] == rest[i - 1] && r[j] == rest[j - 1];
          }
        }
      }
    }
  }

  /** Removing one row keeps every pairwise invariant. */
  lemma RemoveAtPairwise<T>(s: seq<T>, k: nat, rel: (T, T) -> bool)
    requires k < |s| && Pairwise(s, rel)
    ensures Pairwise(RemoveAt(s, k), rel)
  {
    var r := RemoveAt(s, k);
    forall i, j | 0 <= i < j < |r| ensures rel(r[i], r[j]) {
      var i' := if i < k then i else i + 1;
      var j' := if j < k then j else j + 1;
      assert r[i] == s[i'] && r[j] == s[j'];
    }
  }

  /** Changing one row keeps a pairwise invariant when the new row relates as the old one did. */
  lemma UpdatePairwise<T>(s: seq<T>, k: nat, x: T, rel: (T, T) -> bool)
    requires k < |s| && Pairwise(s, rel)
    requires forall i :: 0 <= i < k ==> rel(s[i], x)
    requires forall j :: k < j < |s| ==> rel(x, s[j])
    ensures Pairwise(s[k := x], rel)
  {
  }

  /** Appending a row that relates to every existing row keeps the invariant. */
  lemma AppendPairwise<T>(s: seq<T>, x: T, rel: (T, T) -> bool)
    requires Pairwise(s, rel)
    requires forall i :: 0 <= i < |s| ==> rel(s[i], x)
    ensures Pairwise(s + [x], rel)
  {
  }
}
