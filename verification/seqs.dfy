/** Generic sequence helpers: first-occurrence de-duplication (the order in
    which a JavaScript `Set` or object keeps its keys) and order-preserving
    subsequences.
 */
module Seqs {

  /** No element occurs twice. */
  predicate Distinct<T(==)>(s: seq<T>) {
    forall i, j | 0 <= i < j < |s| :: s[i] != s[j]
  }

  /** `a` is obtained from `b` by deleting elements, keeping the order. */
  predicate IsSubsequence<T(==)>(a: seq<T>, b: seq<T>)
    decreases |b|
  {
    if |a| == 0 then true
    else if |b| == 0 then false
    else if a[|a| - 1] == b[|b| - 1] then IsSubsequence(a[..|a| - 1], b[..|b| - 1])
    else IsSubsequence(a, b[..|b| - 1])
  }

  /** Every element of `s` once, in the order of its first occurrence. */
  function Dedup<T(==,!new)>(s: seq<T>): (d: seq<T>)
    ensures Distinct(d)
    ensures forall x :: x in d <==> x in s
    ensures |d| <= |s|
  {
    if |s| == 0 then []
    else
      var prefix := Dedup(s[..|s| - 1]);
      var last := s[|s| - 1];
      assert forall x :: x in s <==> x in s[..|s| - 1] || x == last;
      if last in prefix then prefix else prefix + [last]
  }

  /** Any sequence is a subsequence of itself. */
  lemma {:induction false} SubsequenceRefl<T>(s: seq<T>)
    ensures IsSubsequence(s, s)
  {
    if |s| > 0 {
      SubsequenceRefl(s[..|s| - 1]);
    }
  }

  /** Elements of a subsequence come from the larger sequence. */
  lemma {:induction false} SubsequenceMembers<T>(a: seq<T>, b: seq<T>)
    requires IsSubsequence(a, b)
    ensures forall x :: x in a ==> x in b
    decreases |b|
  {
    if |a| > 0 {
      assert |b| > 0;
      var b' := b[..|b| - 1];
      assert forall x :: x in b' ==> x in b;
      if a[|a| - 1] == b[|b| - 1] {
        SubsequenceMembers(a[..|a| - 1], b');
        assert forall x :: x in a ==> x in a[..|a| - 1] || x == a[|a| - 1];
      } else {
        SubsequenceMembers(a, b');
      }
    }
  }

  /** A non-empty sequence is its front followed by its last element. */
  lemma SplitLast<T>(s: seq<T>)
    requires |s| > 0
    ensures s[..|s| - 1] + [s[|s| - 1]] == s
  {
  }
}
