/** Sorting a list of numbers by an arbitrary key, equal keys in their original order. */
module StableSort {
  import opened Lists

  /** x goes behind every element it is not strictly above. */
  function Insert(s: seq<nat>, x: nat, above: (nat, nat) -> bool): seq<nat>
    decreases |s|
  {
    if s != [] && above(x, s[|s| - 1]) then Insert(s[..|s| - 1], x, above) + [s[|s| - 1]] else s + [x]
  }

  function SortBy(s: seq<nat>, above: (nat, nat) -> bool): seq<nat>
    decreases |s|
  {
    if s == [] then [] else Insert(SortBy(s[..|s| - 1], above), s[|s| - 1], above)
  }

  /** `above` compares keys: a strict order in which elements with equal keys are exchangeable. */
  ghost predicate WeakOrder(above: (nat, nat) -> bool) {
    && (forall a, b :: above(a, b) ==> !above(b, a))
    && (forall a, b, c :: !above(a, b) && !above(b, c) ==> !above(a, c))
  }

  ghost predicate Sorted(s: seq<nat>, above: (nat, nat) -> bool) {
    forall j, k :: 0 <= j < k < |s| ==> !above(s[k], s[j])
  }

  lemma {:induction false} InsertMember(s: seq<nat>, x: nat, above: (nat, nat) -> bool, y: nat)
    ensures y in Insert(s, x, above) <==> y in s || y == x
    ensures |Insert(s, x, above)| == |s| + 1
    decreases |s|
  {
    if s != [] && above(x, s[|s| - 1]) {
      var front, last := s[..|s| - 1], s[|s| - 1];
      InsertMember(front, x, above, y);
      assert s == front + [last];
    }
  }

  lemma {:induction false} InsertKeeps(s: seq<nat>, x: nat, above: (nat, nat) -> bool)
    requires Distinct(s) && x !in s
    ensures Distinct(Insert(s, x, above))
    decreases |s|
  {
    if s != [] && above(x, s[|s| - 1]) {
      var front, last := s[..|s| - 1], s[|s| - 1];
      assert forall y :: y in front ==> y in s;
      InsertKeeps(front, x, above);
      var f := Insert(front, x, above);
      forall j | 0 <= j < |f| ensures f[j] != last {
        InsertMember(front, x, above, f[j]);
      }
    }
  }

  lemma {:induction false} InsertSorted(s: seq<nat>, x: nat, above: (nat, nat) -> bool)
    requires WeakOrder(above) && Sorted(s, above)
    ensures Sorted(Insert(s, x, above), above)
    decreases |s|
  {
    if s != [] && above(x, s[|s| - 1]) {
      var front, last := s[..|s| - 1], s[|s| - 1];
      InsertSorted(front, x, above);
      var f := Insert(front, x, above);
      forall j | 0 <= j < |f| ensures !above(last, f[j]) {
        InsertMember(front, x, above, f[j]);
        if f[j] != x {
          var i :| 0 <= i < |front| && front[i] == f[j];
          assert !above(s[|s| - 1], s[i]);
        }
      }
    } else if s != [] {
      var last := |s| - 1;
      forall j | 0 <= j < |s| ensures !above(x, s[j]) {
        if j < last {
          assert !above(s[last], s[j]);
        }
      }
    }
  }

  /** Sorting rearranges. */
  lemma {:induction false} SortMember(s: seq<nat>, above: (nat, nat) -> bool, y: nat)
    ensures y in SortBy(s, above) <==> y in s
    ensures |SortBy(s, above)| == |s|
    decreases |s|
  {
    if s != [] {
      var front, last := s[..|s| - 1], s[|s| - 1];
      SortMember(front, above, y);
      InsertMember(SortBy(front, above), last, above, y);
      assert s == front + [last];
    }
  }

  lemma {:induction false} SortFacts(s: seq<nat>, above: (nat, nat) -> bool)
    requires Distinct(s)
    ensures Distinct(SortBy(s, above)) && |SortBy(s, above)| == |s|
    ensures forall y :: y in SortBy(s, above) <==> y in s
    ensures WeakOrder(above) ==> Sorted(SortBy(s, above), above)
    decreases |s|
  {
    if s != [] {
      var front, last := s[..|s| - 1], s[|s| - 1];
      SortFacts(front, above);
      InsertKeeps(SortBy(front, above), last, above);
      if WeakOrder(above) {
        InsertSorted(SortBy(front, above), last, above);
      }
    }
    forall y ensures y in SortBy(s, above) <==> y in s {
      SortMember(s, above, y);
    }
    SortMember(s, above, 0);
  }

  ghost predicate Increasing(s: seq<nat>) {
    forall j, k :: 0 <= j < k < |s| ==> s[j] < s[k]
  }

  /** a before b: a larger key, or the same key and an earlier place. */
  ghost predicate Precedes(a: nat, b: nat, above: (nat, nat) -> bool) {
    above(a, b) || (!above(b, a) && a < b)
  }

  ghost predicate InOrder(s: seq<nat>, above: (nat, nat) -> bool) {
    forall j, k :: 0 <= j < k < |s| ==> Precedes(s[j], s[k], above)
  }

  lemma {:induction false} InsertStable(s: seq<nat>, x: nat, above: (nat, nat) -> bool)
    requires WeakOrder(above) && InOrder(s, above) && forall y :: y in s ==> y < x
    ensures InOrder(Insert(s, x, above), above)
    decreases |s|
  {
    if s != [] && above(x, s[|s| - 1]) {
      var front, last := s[..|s| - 1], s[|s| - 1];
      assert forall y :: y in front ==> y in s;
      InsertStable(front, x, above);
      var f := Insert(front, x, above);
      forall j | 0 <= j < |f| ensures Precedes(f[j], last, above) {
        InsertMember(front, x, above, f[j]);
        if f[j] != x {
          var i :| 0 <= i < |front| && front[i] == f[j];
          assert Precedes(s[i], s[|s| - 1], above);
        }
      }
    } else if s != [] {
      var last := |s| - 1;
      forall j | 0 <= j < |s| ensures Precedes(s[j], x, above) {
        assert s[j] in s;
        if j < last {
          assert Precedes(s[j], s[last], above);
        }
      }
    }
  }

  /** Sorting a list of places keeps places with equal keys in order. */
  lemma {:induction false} SortStable(s: seq<nat>, above: (nat, nat) -> bool)
    requires WeakOrder(above) && Increasing(s)
    ensures InOrder(SortBy(s, above), above)
    decreases |s|
  {
    if s != [] {
      var front, last := s[..|s| - 1], s[|s| - 1];
      SortStable(front, above);
      forall y | y in SortBy(front, above) ensures y < last {
        SortMember(front, above, y);
      }
      InsertStable(SortBy(front, above), last, above);
    }
  }
}
