/**
 * The list toggle the front end uses for tags, categories and languages:
 * `list.includes(x) ? list.filter(y => y !== x) : [...list, x]`.
 */
module ListToggle {
  import opened Seqs

  function Except<T(==)>(x: T): T -> bool {
    (y: T) => y != x
  }

  /** Remove every copy of `x` when it is present, otherwise append it. */
  function Toggle<T(==,!new)>(s: seq<T>, x: T): (r: seq<T>)
    ensures x in r <==> x !in s
    ensures forall y :: y != x ==> (y in r <==> y in s)
    ensures x !in s ==> r == s + [x]
  {
    if x in s then Filter(s, Except(x)) else s + [x]
  }

  lemma {:induction false} FilterAppendOne<T(!new)>(s: seq<T>, x: T, p: T -> bool)
    ensures Filter(s + [x], p) == Filter(s, p) + (if p(x) then [x] else [])
  {
    if s != [] {
      assert (s + [x])[1..] == s[1..] + [x];
      FilterAppendOne(s[1..], x, p);
    }
  }

  lemma {:induction false} FilterAll<T(!new)>(s: seq<T>, p: T -> bool)
    requires forall i :: 0 <= i < |s| ==> p(s[i])
    ensures Filter(s, p) == s
  {
    if s != [] {
      FilterAll(s[1..], p);
    }
  }

  lemma FilterIdempotent<T(!new)>(s: seq<T>, p: T -> bool)
    ensures Filter(Filter(s, p), p) == Filter(s, p)
  {
    FilterAll(Filter(s, p), p);
  }

  /**
   * Toggling only moves `x`: with `x` taken out, the list before and after
   * holds the same elements in the same order.
   */
  lemma ToggleKeepsOthersInOrder<T(!new)>(s: seq<T>, x: T)
    ensures Filter(Toggle(s, x), Except(x)) == Filter(s, Except(x))
  {
    if x in s {
      FilterIdempotent(s, Except(x));
    } else {
      FilterAppendOne(s, x, Except(x));
    }
  }

  /** Toggling an absent element twice gives back the list. */
  lemma ToggleAbsentTwice<T(!new)>(s: seq<T>, x: T)
    requires x !in s
    ensures Toggle(Toggle(s, x), x) == s
  {
    FilterAppendOne(s, x, Except(x));
    FilterAll(s, Except(x));
  }

  /** Toggling a present element twice moves it to the end, once. */
  lemma TogglePresentTwice<T(!new)>(s: seq<T>, x: T)
    requires x in s
    ensures Toggle(Toggle(s, x), x) == Filter(s, Except(x)) + [x]
  {
  }
}
