/** Finite dependency relations: one without a cycle has, in every non-empty part of it, a node that
    depends on nothing in that part. */
module Acyclic {
  import opened Lists

  /** Each node with the nodes it depends on. */
  type Graph = map<nat, set<nat>>

  /** A walk along dependencies that returns to where it started; a self-loop is one of two entries. */
  predicate Cycle(g: Graph, p: seq<nat>) {
    |p| >= 2 && p[0] == p[|p| - 1] && Walk(g, p)
  }

  predicate Walk(g: Graph, p: seq<nat>) {
    forall i :: 0 <= i < |p| - 1 ==> p[i] in g && p[i + 1] in g[p[i]]
  }

  ghost predicate HasCycle(g: Graph) {
    exists p: seq<nat> :: Cycle(g, p)
  }

  /** More entries than different values: some value occurs twice. */
  lemma {:induction false} Pigeonhole(w: seq<nat>, s: set<nat>) returns (j: nat, k: nat)
    requires |w| > |s| && forall i :: 0 <= i < |w| ==> w[i] in s
    ensures j < k < |w| && w[j] == w[k]
  {
    if Distinct(w) {
      DistinctSize(w);
      SubsetSize(Members(w), s);
      assert false;
    }
    j, k :| 0 <= j < k < |w| && w[j] == w[k];
  }

  lemma {:induction false} SubsetSize(a: set<nat>, b: set<nat>)
    requires a <= b
    ensures |a| <= |b|
  {
    assert b == a + (b - a);
  }

  /** Every node of s depends on another node of s. */
  ghost predicate NoSource(g: Graph, s: set<nat>) {
    forall n :: n in s ==> n in g && g[n] * s != {}
  }

  lemma {:induction false} LongWalk(g: Graph, s: set<nat>, len: nat) returns (w: seq<nat>)
    requires s != {} && NoSource(g, s) && len >= 1
    ensures |w| == len && Walk(g, w) && forall i :: 0 <= i < |w| ==> w[i] in s
  {
    if len == 1 {
      var n :| n in s;
      w := [n];
    } else {
      var v := LongWalk(g, s, len - 1);
      var last := v[|v| - 1];
      assert last in s;
      var n :| n in g[last] * s;
      w := v + [n];
    }
  }

  /** A non-empty set without a source holds a cycle. */
  lemma {:induction false} NoSourceCycle(g: Graph, s: set<nat>) returns (p: seq<nat>)
    requires s != {} && NoSource(g, s)
    ensures Cycle(g, p) && forall i :: 0 <= i < |p| ==> p[i] in s
  {
    var w := LongWalk(g, s, |s| + 1);
    var j, k := Pigeonhole(w, s);
    p := w[j..k + 1];
    forall i | 0 <= i < |p| - 1 ensures p[i] in g && p[i + 1] in g[p[i]] {
      assert p[i] == w[j + i] && p[i + 1] == w[j + i + 1];
    }
  }

  /** No cycle passes through nodes that depend on nothing in a set all cycles are inside of. */
  lemma {:induction false} CycleAvoids(g: Graph, s: set<nat>, p: seq<nat>, i: nat)
    requires Cycle(g, p) && i < |p| && forall k :: 0 <= k < |p| ==> p[k] in s
    ensures p[i] in g && g[p[i]] * s != {}
  {
    var j := if i == |p| - 1 then 0 else i;
    assert p[j] == p[i] && p[j] in g && p[j + 1] in g[p[j]];
    assert p[j + 1] in g[p[i]] * s;
  }
}
