/** Lists of numbers used as identities or places. */
module Lists {

  /** No entry twice. */
  ghost predicate Distinct(s: seq<nat>) {
    forall j, k :: 0 <= j < k < |s| ==> s[j] != s[k]
  }

  function Members(s: seq<nat>): (m: set<nat>)
    ensures forall g :: g in m <==> g in s
  {
    set g | g in s
  }

  lemma {:induction false} DistinctSize(s: seq<nat>)
    requires Distinct(s)
    ensures |Members(s)| == |s|
  {
    if s != [] {
      var front, last := s[..|s| - 1], s[|s| - 1];
      DistinctSize(front);
      assert Members(s) == Members(front) + {last};
    }
  }

  function UpTo(n: nat): (s: seq<nat>)
    ensures |s| == n && forall k :: 0 <= k < n ==> s[k] == k
  {
    seq(n, k => k)
  }

  /** Places in a list of length n. */
  predicate InRange(order: seq<nat>, n: nat) {
    forall k :: 0 <= k < |order| ==> order[k] < n
  }

  /** The entries at the given places, in that order. */
  function Gather<T>(s: seq<T>, order: seq<nat>): (g: seq<T>)
    requires InRange(order, |s|)
    ensures |g| == |order| && forall k :: 0 <= k < |g| ==> g[k] == s[order[k]]
  {
    seq(|order|, k requires 0 <= k < |order| => s[order[k]])
  }
}
