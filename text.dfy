/**
 * String.Contains and String.IndexOf (ordinal, case-sensitive).
 */
module Text {

  /** `q` occurs in `s` starting at position `i`. */
  predicate OccursAt(s: string, q: string, i: nat) {
    i + |q| <= |s| && s[i..i + |q|] == q
  }

  /** s.Contains(q). */
  predicate Contains(s: string, q: string) {
    exists i: nat :: i <= |s| && OccursAt(s, q, i)
  }

  /** The first occurrence of `q` at or after `k`, or -1. */
  function IndexFrom(s: string, q: string, k: nat): (r: int)
    requires forall j: nat :: j < k ==> !OccursAt(s, q, j)
    ensures r == -1 <==> !Contains(s, q)
    ensures r >= 0 ==> k <= r && OccursAt(s, q, r)
    ensures r >= 0 ==> forall j: nat :: j < r ==> !OccursAt(s, q, j)
    decreases |s| - k
  {
    if k + |q| > |s| then -1
    else if OccursAt(s, q, k) then k
    else IndexFrom(s, q, k + 1)
  }

  /** s.IndexOf(q): the position of the first occurrence, or -1 when there is none. */
  function IndexOf(s: string, q: string): (r: int)
    ensures r == -1 <==> !Contains(s, q)
    ensures r >= 0 ==> OccursAt(s, q, r) && forall j: nat :: j < r ==> !OccursAt(s, q, j)
  {
    IndexFrom(s, q, 0)
  }
}
