/** Iteration ranges of one request: a flat list [start, end, start, end, ...]. */
module Ranges {

  /** Append iterations start..end, extending the last range when they follow it directly. */
  function AddRange(r: seq<int>, start: int, end: int): seq<int> {
    if |r| == 0 then [start, end]
    else if r[|r| - 1] + 1 == start then r[|r| - 1 := end]
    else r + [start, end]
  }

  /** Ordered maximal ranges below `bound`: no two touch, so no iteration list has two encodings. */
  ghost predicate Canonical(r: seq<int>, bound: int)
    decreases |r|
  {
    r == [] ||
    (var n := |r|;
     n >= 2 && 0 <= r[n - 2] <= r[n - 1] < bound && Canonical(r[..n - 2], r[n - 2] - 1))
  }

  /** The number of iterations in all ranges. */
  function Total(r: seq<int>): int
    decreases |r|
  {
    if |r| < 2 then 0 else Total(r[..|r| - 2]) + r[|r| - 1] - r[|r| - 2] + 1
  }

  /** Iterations of the range start..end that are done once iteration `stop` has ended. */
  function DoneInRange(start: int, end: int, stop: int): int {
    if stop >= start then (if stop < end then stop else end) - start + 1 else 0
  }

  /** Iterations done once iteration `stop` has ended. */
  function FinishedBy(r: seq<int>, stop: int): int
    decreases |r|
  {
    if |r| < 2 then 0
    else FinishedBy(r[..|r| - 2], stop) + DoneInRange(r[|r| - 2], r[|r| - 1], stop)
  }

  predicate Attends(r: seq<int>, t: int)
    decreases |r|
  {
    |r| >= 2 && (r[|r| - 2] <= t <= r[|r| - 1] || Attends(r[..|r| - 2], t))
  }

  lemma {:induction false} CanonicalFacts(r: seq<int>, bound: int)
    requires Canonical(r, bound)
    ensures |r| % 2 == 0
    ensures Total(r) >= 0 && (Total(r) == 0 <==> r == [])
    ensures forall t :: Attends(r, t) ==> 0 <= t < bound
    ensures forall b :: b >= bound ==> Canonical(r, b)
    decreases |r|
  {
    if r != [] {
      CanonicalFacts(r[..|r| - 2], r[|r| - 2] - 1);
    }
  }

  lemma {:induction false} FinishedByLate(r: seq<int>, bound: int, stop: int)
    requires Canonical(r, bound) && stop >= bound - 1
    ensures FinishedBy(r, stop) == Total(r)
    decreases |r|
  {
    if r != [] {
      FinishedByLate(r[..|r| - 2], r[|r| - 2] - 1, stop);
    }
  }

  /** Reading the ranges at `stop` counts the attended iterations one at a time. */
  lemma {:induction false} FinishedByCounts(r: seq<int>, bound: int, stop: int)
    requires Canonical(r, bound)
    ensures FinishedBy(r, stop) == FinishedBy(r, stop - 1) + (if Attends(r, stop) then 1 else 0)
    ensures stop < 0 ==> FinishedBy(r, stop) == 0
    decreases |r|
  {
    if r != [] {
      FinishedByCounts(r[..|r| - 2], r[|r| - 2] - 1, stop);
      CanonicalFacts(r[..|r| - 2], r[|r| - 2] - 1);
    }
  }

  lemma {:induction false} FinishedByMonotone(r: seq<int>, bound: int, s: int, t: int)
    requires Canonical(r, bound) && s <= t
    ensures 0 <= FinishedBy(r, s) <= FinishedBy(r, t) <= Total(r)
    decreases |r|
  {
    if r != [] {
      FinishedByMonotone(r[..|r| - 2], r[|r| - 2] - 1, s, t);
    }
  }

  /** Recording one more stretch of iterations keeps the encoding canonical and adds exactly it. */
  lemma {:induction false} AddRangeFacts(r: seq<int>, start: int, end: int)
    requires Canonical(r, start) && 0 <= start <= end
    ensures Canonical(AddRange(r, start, end), end + 1)
    ensures Total(AddRange(r, start, end)) == Total(r) + end - start + 1
    ensures forall s :: FinishedBy(AddRange(r, start, end), s) == FinishedBy(r, s) + DoneInRange(start, end, s)
    ensures forall t :: Attends(AddRange(r, start, end), t) <==> Attends(r, t) || start <= t <= end
    ensures AddRange(r, start, end) != [] && AddRange(r, start, end)[|AddRange(r, start, end)| - 1] == end
  {
    var a := AddRange(r, start, end);
    if |r| == 0 {
      assert a[..0] == [];
    } else if r[|r| - 1] + 1 == start {
      assert a[..|a| - 2] == r[..|r| - 2];
    } else {
      assert a[..|a| - 2] == r;
    }
  }

  /** Recording start..end and then end+1 is recording start..end+1 in one go. */
  lemma {:induction false} AddRangeMerges(r: seq<int>, start: int, end: int)
    requires start <= end
    ensures AddRange(AddRange(r, start, end), end + 1, end + 1) == AddRange(r, start, end + 1)
  {
  }

  lemma {:induction false} AttendsLast(r: seq<int>, bound: int)
    requires Canonical(r, bound) && r != []
    ensures Attends(r, r[|r| - 1]) && Attends(r, r[|r| - 2]) && !Attends(r, r[|r| - 2] - 1)
    ensures forall t :: Attends(r, t) ==> t <= r[|r| - 1]
    ensures forall t :: r[|r| - 2] <= t <= r[|r| - 1] ==> Attends(r, t)
    ensures forall t :: Attends(r[..|r| - 2], t) <==> Attends(r, t) && t < r[|r| - 2]
  {
    CanonicalFacts(r[..|r| - 2], r[|r| - 2] - 1);
  }

  /** The encoding is unique: equal iteration sets have equal range lists. */
  lemma {:induction false} CanonicalUnique(r: seq<int>, q: seq<int>, bound: int)
    requires Canonical(r, bound) && Canonical(q, bound)
    requires forall t :: Attends(r, t) <==> Attends(q, t)
    ensures r == q
    decreases |r|
  {
    if r == [] {
      if q != [] {
        AttendsLast(q, bound);
        assert false;
      }
    } else {
      AttendsLast(r, bound);
      assert q != [];
      AttendsLast(q, bound);
      var n, m := |r|, |q|;
      assert r[n - 1] == q[m - 1];
      assert !Attends(r, q[m - 2] - 1) && !Attends(q, r[n - 2] - 1);
      assert r[n - 2] == q[m - 2];
      var rf, qf := r[..n - 2], q[..m - 2];
      forall t ensures Attends(rf, t) <==> Attends(qf, t) {
        assert Attends(r, t) <==> Attends(q, t);
      }
      CanonicalUnique(rf, qf, r[n - 2] - 1);
      assert r == r[..n - 2] + [r[n - 2], r[n - 1]];
      assert q == q[..m - 2] + [q[m - 2], q[m - 1]];
    }
  }
}
