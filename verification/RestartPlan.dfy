/** Rebuilding the iteration ranges when a simulated schedule is cut after some iteration: the
    unfinished running requests are prefilled again, and the rest of the schedule moves up. */
module RestartPlan {
  import opened Ranges

  datatype Rng = Rng(start: int, end: int)

  /** The ranges of a flat list. */
  function Pairs(r: seq<int>): (rs: seq<Rng>)
    decreases |r|
  {
    if |r| < 2 then [] else Pairs(r[..|r| - 2]) + [Rng(r[|r| - 2], r[|r| - 1])]
  }

  function Count(rs: seq<Rng>): int {
    if rs == [] then 0 else rs[0].end - rs[0].start + 1 + Count(rs[1..])
  }

  function DoneBy(rs: seq<Rng>, stop: int): int {
    if rs == [] then 0 else DoneInRange(rs[0].start, rs[0].end, stop) + DoneBy(rs[1..], stop)
  }

  predicate Covers(rs: seq<Rng>, t: int) {
    exists k | 0 <= k < |rs| :: rs[k].start <= t <= rs[k].end
  }

  /** Ordered and disjoint ranges from lo on, below hi. */
  ghost predicate Ordered(rs: seq<Rng>, lo: int, hi: int) {
    && (forall k :: 0 <= k < |rs| ==> lo <= rs[k].start <= rs[k].end < hi)
    && (forall j, k :: 0 <= j < k < |rs| ==> rs[j].end < rs[k].start)
  }

  // ----- cutting

  /** One range after the cut: moved to the new origin, clipped, dropped if it is over. */
  function CutOne(r: Rng, stop: int): (c: seq<Rng>)
    ensures |c| <= 1
  {
    var start, end := r.start - (stop + 1), r.end - (stop + 1);
    if end >= 0 then [Rng(if start > 0 then start else 0, end)] else []
  }

  function Cut(rs: seq<Rng>, stop: int): seq<Rng> {
    if rs == [] then [] else CutOne(rs[0], stop) + Cut(rs[1..], stop)
  }

  lemma {:induction false} OrderedTail(rs: seq<Rng>, lo: int, hi: int)
    requires Ordered(rs, lo, hi) && rs != []
    ensures Ordered(rs[1..], rs[0].end + 1, hi)
  {
  }

  lemma {:induction false} OrderedCons(r: Rng, rs: seq<Rng>, lo: int, hi: int)
    requires lo <= r.start <= r.end < hi && Ordered(rs, r.end + 1, hi)
    ensures Ordered([r] + rs, lo, hi)
  {
  }

  lemma {:induction false} OrderedWeaken(rs: seq<Rng>, lo: int, lo': int, hi: int)
    requires Ordered(rs, lo, hi) && lo' <= lo
    ensures Ordered(rs, lo', hi)
  {
  }

  /** The cut loses nothing: what is done by the stop and what is left add up. */
  lemma {:induction false} CutCounts(rs: seq<Rng>, stop: int)
    requires forall k :: 0 <= k < |rs| ==> rs[k].start <= rs[k].end
    ensures DoneBy(rs, stop) + Count(Cut(rs, stop)) == Count(rs)
    ensures 0 <= DoneBy(rs, stop) <= Count(rs)
    ensures Cut(rs, stop) != [] ==> DoneBy(rs, stop) < Count(rs)
    decreases |rs|
  {
    if rs != [] {
      CutCounts(rs[1..], stop);
      var c, tail := CutOne(rs[0], stop), Cut(rs[1..], stop);
      assert c == [] ==> c + tail == tail;
      assert c != [] ==> (c + tail)[1..] == tail;
    }
  }

  lemma {:induction false} CutOrdered(rs: seq<Rng>, stop: int, lo: int, hi: int)
    requires Ordered(rs, lo, hi)
    ensures Ordered(Cut(rs, stop), 0, hi - (stop + 1))
    ensures Ordered(Cut(rs, stop), lo - (stop + 1), hi - (stop + 1))
    decreases |rs|
  {
    if rs != [] {
      OrderedTail(rs, lo, hi);
      CutOrdered(rs[1..], stop, rs[0].end + 1, hi);
      var c, tail := CutOne(rs[0], stop), Cut(rs[1..], stop);
      if c == [] {
        assert c + tail == tail;
      } else {
        OrderedCons(c[0], tail, 0, hi - (stop + 1));
        OrderedCons(c[0], tail, lo - (stop + 1), hi - (stop + 1));
      }
    }
  }

  // ----- a running request drops its next iteration: the new prefill produces that token

  function DropFirst(rs: seq<Rng>): seq<Rng>
    requires rs != []
  {
    if rs[0].start + 1 <= rs[0].end then [Rng(rs[0].start + 1, rs[0].end)] + rs[1..] else rs[1..]
  }

  lemma {:induction false} DropFirstFacts(rs: seq<Rng>, lo: int, hi: int)
    requires Ordered(rs, lo, hi) && rs != []
    ensures Count(DropFirst(rs)) == Count(rs) - 1
    ensures Ordered(DropFirst(rs), rs[0].start + 1, hi)
    ensures forall t :: Covers(DropFirst(rs), t) ==> Covers(rs, t) && t != rs[0].start
  {
    var d := DropFirst(rs);
    OrderedTail(rs, lo, hi);
    if rs[0].start + 1 <= rs[0].end {
      assert d[1..] == rs[1..];
    }
    forall t | Covers(d, t) ensures Covers(rs, t) && t != rs[0].start {
      var k :| 0 <= k < |d| && d[k].start <= t <= d[k].end;
      var j := if rs[0].start + 1 <= rs[0].end then k else k + 1;
      assert rs[j].start <= t <= rs[j].end;
    }
  }

  // ----- deleting an idle iteration

  function Moved(t: int, f: int): int {
    if t >= f then t - 1 else t
  }

  function MoveUp(rs: seq<Rng>, f: int): (m: seq<Rng>)
    ensures |m| == |rs|
  {
    seq(|rs|, k requires 0 <= k < |rs| => Rng(Moved(rs[k].start, f), Moved(rs[k].end, f)))
  }

  /** Deleting an iteration nobody attends keeps counts, order and disjointness. */
  lemma {:induction false} MoveUpFacts(rs: seq<Rng>, f: int, lo: int, hi: int)
    requires Ordered(rs, lo, hi) && !Covers(rs, f) && lo <= f
    ensures Count(MoveUp(rs, f)) == Count(rs)
    ensures Ordered(MoveUp(rs, f), lo, if f < hi then hi - 1 else hi)
    ensures forall t :: Covers(MoveUp(rs, f), t) <==> Covers(rs, if t >= f then t + 1 else t)
  {
    var m := MoveUp(rs, f);
    assert forall k :: 0 <= k < |rs| ==> !(rs[k].start <= f <= rs[k].end);
    MoveUpCount(rs, f);
    forall t ensures Covers(m, t) <==> Covers(rs, if t >= f then t + 1 else t) {
      var u := if t >= f then t + 1 else t;
      assert forall k :: 0 <= k < |rs| ==> (m[k].start <= t <= m[k].end <==> rs[k].start <= u <= rs[k].end);
    }
  }

  lemma {:induction false} MoveUpCount(rs: seq<Rng>, f: int)
    requires forall k :: 0 <= k < |rs| ==> rs[k].start <= rs[k].end && !(rs[k].start <= f <= rs[k].end)
    ensures Count(MoveUp(rs, f)) == Count(rs)
    decreases |rs|
  {
    if rs != [] {
      assert MoveUp(rs, f)[1..] == MoveUp(rs[1..], f);
      MoveUpCount(rs[1..], f);
    }
  }

  // ----- all requests

  predicate Attended(plan: seq<seq<Rng>>, t: int) {
    exists i | 0 <= i < |plan| :: Covers(plan[i], t)
  }

  /** One pass of the deletion loop. */
  function DeleteIfIdle(plan: seq<seq<Rng>>, f: int): (p: seq<seq<Rng>>)
    ensures |p| == |plan|
  {
    if Attended(plan, f) then plan
    else seq(|plan|, i requires 0 <= i < |plan| => MoveUp(plan[i], f))
  }

  function DeleteIdle(plan: seq<seq<Rng>>, fs: seq<int>): (p: seq<seq<Rng>>)
    ensures |p| == |plan|
  {
    if fs == [] then plan else DeleteIfIdle(DeleteIdle(plan, fs[..|fs| - 1]), fs[|fs| - 1])
  }

  /** s[i:-1] = s[i+1:] followed by s = s[:-1]: past the end this still drops the last element. */
  function RemoveAt<T>(s: seq<T>, i: int): seq<T>
    requires i >= 0
  {
    if s == [] then []
    else if i < |s| then s[..i] + s[i + 1..]
    else s[..|s| - 1]
  }

  /** The loop on an array indexed by iterations, with `skip` entries in front. */
  function DeleteEntries<T>(s: seq<T>, plan: seq<seq<Rng>>, fs: seq<int>, skip: nat): seq<T>
    requires forall k :: 0 <= k < |fs| ==> fs[k] >= 0
  {
    if fs == [] then s
    else
      var front := fs[..|fs| - 1];
      var s' := DeleteEntries(s, plan, front, skip);
      if Attended(DeleteIdle(plan, front), fs[|fs| - 1]) then s' else RemoveAt(s', fs[|fs| - 1] + skip)
  }

  ghost predicate PlanOrdered(plan: seq<seq<Rng>>, hi: int) {
    forall i :: 0 <= i < |plan| ==> Ordered(plan[i], 0, hi)
  }

  lemma {:induction false} DeleteIfIdleKeeps(plan: seq<seq<Rng>>, f: int, hi: int)
    requires PlanOrdered(plan, hi) && f >= 0
    ensures var hi' := if Attended(plan, f) || f >= hi then hi else hi - 1;
            PlanOrdered(DeleteIfIdle(plan, f), hi')
    ensures forall i :: 0 <= i < |plan| ==> Count(DeleteIfIdle(plan, f)[i]) == Count(plan[i])
  {
    if !Attended(plan, f) {
      forall i | 0 <= i < |plan|
        ensures Ordered(MoveUp(plan[i], f), 0, if f < hi then hi - 1 else hi)
                && Count(MoveUp(plan[i], f)) == Count(plan[i])
      {
        assert !Covers(plan[i], f);
        MoveUpFacts(plan[i], f, 0, hi);
      }
    }
  }

  /** However many idle iterations are deleted, counts and order survive. */
  lemma {:induction false} DeleteIdleKeeps(plan: seq<seq<Rng>>, fs: seq<int>, hi: int)
    requires PlanOrdered(plan, hi) && forall k :: 0 <= k < |fs| ==> fs[k] >= 0
    ensures PlanOrdered(DeleteIdle(plan, fs), hi)
    ensures forall i :: 0 <= i < |plan| ==> Count(DeleteIdle(plan, fs)[i]) == Count(plan[i])
  {
    if fs != [] {
      var front := fs[..|fs| - 1];
      DeleteIdleKeeps(plan, front, hi);
      DeleteIfIdleKeeps(DeleteIdle(plan, front), fs[|fs| - 1], hi);
    }
  }

  // ----- merging with the recovery prefill

  function Plus(rs: seq<Rng>, p: int): (m: seq<Rng>)
    ensures |m| == |rs|
  {
    seq(|rs|, k requires 0 <= k < |rs| => Rng(rs[k].start + p, rs[k].end + p))
  }

  lemma {:induction false} PlusFacts(rs: seq<Rng>, p: int, lo: int, hi: int)
    requires Ordered(rs, lo, hi)
    ensures Ordered(Plus(rs, p), lo + p, hi + p) && Count(Plus(rs, p)) == Count(rs)
  {
    PlusCount(rs, p);
  }

  lemma {:induction false} PlusCount(rs: seq<Rng>, p: int)
    ensures Count(Plus(rs, p)) == Count(rs)
    decreases |rs|
  {
    if rs != [] {
      assert Plus(rs, p)[1..] == Plus(rs[1..], p);
      PlusCount(rs[1..], p);
    }
  }

  /** The prefill iteration `slot` becomes a range of its own, or the start of the first range when
      that follows directly. */
  function WithPrefill(rs: seq<Rng>, slot: int): seq<Rng> {
    if rs == [] || rs[0].start > slot + 1 then [Rng(slot, slot)] + rs
    else [Rng(slot, rs[0].end)] + rs[1..]
  }

  lemma {:induction false} WithPrefillFacts(rs: seq<Rng>, slot: int, p: int, hi: int)
    requires Ordered(rs, p, hi) && 0 <= slot < p <= hi
    ensures Ordered(WithPrefill(rs, slot), 0, hi)
    ensures Count(WithPrefill(rs, slot)) == Count(rs) + 1
    ensures WithPrefill(rs, slot)[0].start == slot
    ensures |WithPrefill(rs, slot)| == |rs| + (if rs != [] && rs[0].start == slot + 1 then 0 else 1)
  {
    if rs == [] || rs[0].start > slot + 1 {
      assert ([Rng(slot, slot)] + rs)[1..] == rs;
    } else {
      assert ([Rng(slot, rs[0].end)] + rs[1..])[1..] == rs[1..];
    }
  }
}
