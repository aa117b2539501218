/** Sequences of numbers without repetition. */
module Sequences {
  ghost predicate Distinct(s: seq<nat>) {
    forall i, j | 0 <= i < j < |s| :: s[i] != s[j]
  }

  /** Numbers below n without repetition are at most n. */
  lemma {:induction false} DistinctIsShort(s: seq<nat>, n: nat)
    requires Distinct(s) && forall i | 0 <= i < |s| :: s[i] < n
    ensures |s| <= n
    decreases n
  {
    if |s| > 0 {
      assert s[0] < n;
    }
    if k :| 0 <= k < |s| && s[k] == n - 1 {
      var t := s[..k] + s[k + 1..];
      DistinctIsShort(t, n - 1);
    } else if n > 0 {
      DistinctIsShort(s, n - 1);
    }
  }
}
