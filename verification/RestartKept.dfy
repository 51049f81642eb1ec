/** What the deletions of the restart leave: which entries of an array over iterations survive, and where
    the ranges go. Both follow the same count, so a range ends at the entry it ended at before. */
module RestartKept {
  import opened Lists
  import opened RestartPlan
  import opened RestartScan

  /** The positions below n other than the idle ones among those read. */
  function KeptBelow(plan: seq<seq<Rng>>, rs: seq<int>, n: nat): (ks: seq<nat>)
    ensures |ks| <= n && InRange(ks, n)
  {
    if n == 0 then []
    else
      var front := KeptBelow(plan, rs, n - 1);
      if n - 1 in rs && !Attended(plan, n - 1) then front else front + [n - 1]
  }

  /** A kept position stands where the kept ones before it end. */
  lemma {:induction false} KeptAt(plan: seq<seq<Rng>>, rs: seq<int>, n: nat, t: nat)
    requires t < n && !(t in rs && !Attended(plan, t))
    ensures var ks, k := KeptBelow(plan, rs, n), |KeptBelow(plan, rs, t)|; k < |ks| && ks[k] == t
    ensures KeptBelow(plan, rs, t) <= KeptBelow(plan, rs, n)
  {
    if t < n - 1 {
      KeptAt(plan, rs, n - 1, t);
    }
  }

  lemma {:induction false} KeptGrows(plan: seq<seq<Rng>>, rs: seq<int>, m: nat, n: nat)
    requires m <= n
    ensures KeptBelow(plan, rs, m) <= KeptBelow(plan, rs, n)
  {
    if m < n {
      KeptGrows(plan, rs, m, n - 1);
    }
  }

  /** One more read removes its position if that is idle and below n. */
  lemma {:induction false} KeptMore(plan: seq<seq<Rng>>, rs: seq<int>, r: int, n: nat)
    requires r >= 0 && r !in rs
    ensures Attended(plan, r) || r >= n ==> KeptBelow(plan, rs + [r], n) == KeptBelow(plan, rs, n)
    ensures !Attended(plan, r) && r < n ==>
              var ks, k := KeptBelow(plan, rs, n), |KeptBelow(plan, rs, r)|;
              k < |ks| && ks[k] == r && KeptBelow(plan, rs + [r], n) == ks[..k] + ks[k + 1..]
  {
    if n > 0 {
      KeptMore(plan, rs, r, n - 1);
      assert n - 1 in rs + [r] <==> n - 1 in rs || n - 1 == r;
    }
  }

  /** Counting: each idle read below n takes one position away. */
  lemma {:induction false} KeptCount(plan: seq<seq<Rng>>, rs: seq<int>, n: nat)
    requires Rising(rs, n)
    ensures |KeptBelow(plan, rs, n)| == n - IdleAmong(plan, rs)
    decreases |rs|
  {
    if rs == [] {
      AllKept(plan, n);
    } else {
      var front, r := rs[..|rs| - 1], rs[|rs| - 1];
      assert rs == front + [r];
      KeptCount(plan, front, n);
      KeptMore(plan, front, r, n);
      IdleMore(plan, front, r);
    }
  }

  lemma {:induction false} AllKept(plan: seq<seq<Rng>>, n: nat)
    ensures |KeptBelow(plan, [], n)| == n
  {
    if n > 0 {
      AllKept(plan, n - 1);
    }
  }

  lemma {:induction false} RisingMore(rs: seq<int>, r: int, c: int)
    requires Rising(rs, r) && 0 <= r < c
    ensures Rising(rs + [r], c)
  {
  }

  lemma {:induction false} ReadsRising(plan: seq<seq<Rng>>, fs: seq<int>, c: int)
    requires Rising(fs, c)
    ensures Rising(Reads(plan, fs), c + IdleAmong(plan, Reads(plan, fs)))
  {
    if fs != [] {
      var front, f := fs[..|fs| - 1], fs[|fs| - 1];
      ReadsRising(plan, front, f);
      ReadsStep(plan, fs);
      NextRising(plan, Reads(plan, front), f, c);
    }
  }

  lemma {:induction false} NextRising(plan: seq<seq<Rng>>, rs: seq<int>, f: int, c: int)
    requires 0 <= f < c && Rising(rs, f + IdleAmong(plan, rs))
    ensures Rising(rs + [f + IdleAmong(plan, rs)], c + IdleAmong(plan, rs + [f + IdleAmong(plan, rs)]))
  {
    var r := f + IdleAmong(plan, rs);
    IdleMore(plan, rs, r);
    RisingMore(rs, r, c + IdleAmong(plan, rs + [r]));
  }

  lemma {:induction false} KeptAtLeast(plan: seq<seq<Rng>>, rs: seq<int>, c: int, n: nat)
    requires Rising(rs, c)
    ensures |KeptBelow(plan, rs, n)| >= n - IdleAmong(plan, rs)
    decreases |rs|
  {
    if rs == [] {
      AllKept(plan, n);
    } else {
      var front, r := rs[..|rs| - 1], rs[|rs| - 1];
      assert rs == front + [r];
      KeptAtLeast(plan, front, r, n);
      KeptMore(plan, front, r, n);
      IdleMore(plan, front, r);
    }
  }

  // ----- entries

  /** Enough positions are kept for the entries that remain. */
  predicate EnoughKept(plan: seq<seq<Rng>>, rs: seq<int>, hi: nat) {
    hi - IdleAmong(plan, rs) >= 0 && |KeptBelow(plan, rs, hi)| >= hi - IdleAmong(plan, rs)
  }

  /** The positions whose entries survive the loop on an array of length hi: an idle read inside the
      array removes its own position, one behind it the last one left. */
  function Survivors(plan: seq<seq<Rng>>, rs: seq<int>, hi: nat): (ks: seq<nat>)
    requires EnoughKept(plan, rs, hi)
    ensures |ks| == hi - IdleAmong(plan, rs) && InRange(ks, hi)
  {
    KeptBelow(plan, rs, hi)[..hi - IdleAmong(plan, rs)]
  }

  lemma {:induction false} SurvivorsReady(plan: seq<seq<Rng>>, fs: seq<int>, c: int, hi: nat)
    requires Rising(fs, c) && |fs| <= hi
    ensures EnoughKept(plan, Reads(plan, fs), hi)
  {
    ReadsRising(plan, fs, c);
    KeptAtLeast(plan, Reads(plan, fs), c + IdleAmong(plan, Reads(plan, fs)), hi);
  }

  lemma {:induction false} OneFewer(plan: seq<seq<Rng>>, rs: seq<int>, f: nat, r: nat, hi: nat)
    requires Rising(rs, r) && r == f + IdleAmong(plan, rs) && r < hi && !Attended(plan, r)
    ensures IdleAmong(plan, rs + [r]) == IdleAmong(plan, rs) + 1
    ensures |KeptBelow(plan, rs, hi)| == hi - IdleAmong(plan, rs) >= 1 && f < |KeptBelow(plan, rs, hi)|
    ensures var ks := KeptBelow(plan, rs, hi); KeptBelow(plan, rs + [r], hi) == ks[..f] + ks[f + 1..]
  {
    IdleMore(plan, rs, r);
    KeptCount(plan, rs, r);
    KeptCount(plan, rs, hi);
    KeptMore(plan, rs, r, hi);
  }

  lemma {:induction false} ReadInside(
      plan: seq<seq<Rng>>, rs: seq<int>, f: nat, r: nat, hi: nat, ks: seq<nat>, ks': seq<nat>)
    requires Rising(rs, r) && r == f + IdleAmong(plan, rs) && r < hi && !Attended(plan, r)
    requires EnoughKept(plan, rs, hi) && EnoughKept(plan, rs + [r], hi)
    requires ks == Survivors(plan, rs, hi) && ks' == Survivors(plan, rs + [r], hi)
    ensures f < |ks| && ks' == ks[..f] + ks[f + 1..]
  {
    OneFewer(plan, rs, f, r, hi);
    WholeTake(KeptBelow(plan, rs, hi));
    WholeTake(KeptBelow(plan, rs + [r], hi));
  }

  lemma {:induction false} ReadBehind(
      plan: seq<seq<Rng>>, rs: seq<int>, f: nat, r: nat, hi: nat, ks: seq<nat>, ks': seq<nat>)
    requires r == f + IdleAmong(plan, rs) && r >= hi && r !in rs && !Attended(plan, r)
    requires EnoughKept(plan, rs, hi) && EnoughKept(plan, rs + [r], hi)
    requires ks == Survivors(plan, rs, hi) && ks' == Survivors(plan, rs + [r], hi)
    ensures 1 <= |ks| <= f && ks' == ks[..|ks| - 1]
  {
    IdleMore(plan, rs, r);
    KeptMore(plan, rs, r, hi);
  }

  lemma {:induction false} WholeTake(ks: seq<nat>)
    ensures ks[..|ks|] == ks
  {
  }

  lemma {:induction false} RemoveGathered<T>(front: seq<T>, rest: seq<T>, ks: seq<nat>, f: nat)
    requires InRange(ks, |rest|) && f < |ks|
    ensures InRange(ks[..f] + ks[f + 1..], |rest|)
    ensures RemoveAt(front + Gather(rest, ks), f + |front|) == front + Gather(rest, ks[..f] + ks[f + 1..])
  {
  }

  lemma {:induction false} RemoveLast<T>(front: seq<T>, rest: seq<T>, ks: seq<nat>, f: nat)
    requires InRange(ks, |rest|) && 1 <= |ks| <= f
    ensures RemoveAt(front + Gather(rest, ks), f + |front|) == front + Gather(rest, ks[..|ks| - 1])
  {
  }

  /** The loop leaves the entries of the surviving positions, in order. */
  lemma {:induction false} EntriesSurvive<T>(
      front: seq<T>, rest: seq<T>, plan: seq<seq<Rng>>, fs: seq<int>, c: int, hi: int)
    returns (rs: seq<int>, ks: seq<nat>)
    requires Rising(fs, c) && |fs| <= |rest| && PlanOrdered(plan, hi)
    ensures rs == Reads(plan, fs) && EnoughKept(plan, rs, |rest|) && ks == Survivors(plan, rs, |rest|)
    ensures DeleteEntries(front + rest, plan, fs, |front|) == front + Gather(rest, ks)
  {
    rs := Reads(plan, fs);
    SurvivorsReady(plan, fs, c, |rest|);
    ks := Survivors(plan, rs, |rest|);
    if fs == [] {
      AllKept(plan, |rest|);
      KeptAll(plan, |rest|);
      assert Gather(rest, ks) == rest;
    } else {
      var rs0, ks0 := EntriesSurvive(front, rest, plan, fs[..|fs| - 1], fs[|fs| - 1], hi);
      var r := LastRead(plan, fs, fs[..|fs| - 1], fs[|fs| - 1], c, hi);
      ReadsStep(plan, fs);
      EntryStep(front, rest, plan, fs, rs0, rs, fs[|fs| - 1], r, ks0, ks);
    }
  }

  lemma {:induction false} KeptAll(plan: seq<seq<Rng>>, n: nat)
    ensures KeptBelow(plan, [], n) == UpTo(n)
  {
    if n > 0 {
      KeptAll(plan, n - 1);
    }
  }

  lemma {:induction false} OneEntryStep<T>(s: seq<T>, plan: seq<seq<Rng>>, fs: seq<int>, skip: nat, r: int)
    requires fs != [] && forall k :: 0 <= k < |fs| ==> fs[k] >= 0
    requires Attended(DeleteIdle(plan, fs[..|fs| - 1]), fs[|fs| - 1]) == Attended(plan, r)
    ensures var s' := DeleteEntries(s, plan, fs[..|fs| - 1], skip);
            DeleteEntries(s, plan, fs, skip) == if Attended(plan, r) then s' else RemoveAt(s', fs[|fs| - 1] + skip)
  {
  }

  lemma {:induction false} ReadsStep(plan: seq<seq<Rng>>, fs: seq<int>)
    requires fs != []
    ensures var rs := Reads(plan, fs[..|fs| - 1]); Reads(plan, fs) == rs + [fs[|fs| - 1] + IdleAmong(plan, rs)]
  {
    var front, f := fs[..|fs| - 1], fs[|fs| - 1];
    var rs := Reads(plan, front);
    assert Reads(plan, fs) == rs + [f + IdleAmong(plan, rs)];
  }

  /** Whether the loop finds candidate f idle, told by the plan it started from. */
  lemma {:induction false} ReadMeans(plan: seq<seq<Rng>>, front: seq<int>, f: int, hi: int)
    requires Rising(front, f) && f >= 0 && PlanOrdered(plan, hi)
    ensures Attended(DeleteIdle(plan, front), f) <==> Attended(plan, f + IdleAmong(plan, Reads(plan, front)))
    ensures Rising(Reads(plan, front), f + IdleAmong(plan, Reads(plan, front)))
  {
    ReadsRight(plan, front, f, hi);
    ReadsRising(plan, front, f);
  }

  /** The last read of the loop, and what it tells. */
  lemma {:induction false} LastRead(plan: seq<seq<Rng>>, fs: seq<int>, front: seq<int>, f: nat, c: int, hi: int)
    returns (r: nat)
    requires fs != [] && Rising(fs, c) && PlanOrdered(plan, hi)
    requires front == fs[..|fs| - 1] && f == fs[|fs| - 1]
    ensures r == f + IdleAmong(plan, Reads(plan, front)) && Rising(Reads(plan, front), r)
    ensures Attended(DeleteIdle(plan, front), f) <==> Attended(plan, r)
  {
    ReadMeans(plan, front, f, hi);
    r := f + IdleAmong(plan, Reads(plan, front));
  }

  lemma {:induction false} EntryStep<T>(
      before: seq<T>, rest: seq<T>, plan: seq<seq<Rng>>, fs: seq<int>, rs: seq<int>, rs': seq<int>, f: nat, r: nat,
      ks: seq<nat>, ks': seq<nat>)
    requires fs != [] && f == fs[|fs| - 1] && (forall k :: 0 <= k < |fs| ==> fs[k] >= 0)
    requires Attended(DeleteIdle(plan, fs[..|fs| - 1]), fs[|fs| - 1]) == Attended(plan, r)
    requires Rising(rs, r) && r == f + IdleAmong(plan, rs) && rs' == rs + [r]
    requires EnoughKept(plan, rs, |rest|) && EnoughKept(plan, rs', |rest|)
    requires ks == Survivors(plan, rs, |rest|) && ks' == Survivors(plan, rs', |rest|)
    requires DeleteEntries(before + rest, plan, fs[..|fs| - 1], |before|) == before + Gather(rest, ks)
    ensures DeleteEntries(before + rest, plan, fs, |before|) == before + Gather(rest, ks')
  {
    OneEntryStep(before + rest, plan, fs, |before|, r);
    EntryRemoved(before, rest, plan, rs, rs', f, r, ks, ks',
                 DeleteEntries(before + rest, plan, fs[..|fs| - 1], |before|));
  }

  lemma {:induction false} EntryRemoved<T>(
      front: seq<T>, rest: seq<T>, plan: seq<seq<Rng>>, rs: seq<int>, rs': seq<int>, f: nat, r: nat,
      ks: seq<nat>, ks': seq<nat>, s: seq<T>)
    requires Rising(rs, r) && r == f + IdleAmong(plan, rs) && rs' == rs + [r]
    requires EnoughKept(plan, rs, |rest|) && EnoughKept(plan, rs', |rest|)
    requires ks == Survivors(plan, rs, |rest|) && ks' == Survivors(plan, rs', |rest|)
    requires s == front + Gather(rest, ks)
    ensures (if Attended(plan, r) then s else RemoveAt(s, f + |front|)) == front + Gather(rest, ks')
  {
    SurvivorStep(front, rest, plan, rs, f, r, ks, ks');
  }

  lemma {:induction false} SurvivorStep<T>(
      front: seq<T>, rest: seq<T>, plan: seq<seq<Rng>>, rs: seq<int>, f: nat, r: nat, ks: seq<nat>, ks': seq<nat>)
    requires Rising(rs, r) && r == f + IdleAmong(plan, rs)
    requires EnoughKept(plan, rs, |rest|) && EnoughKept(plan, rs + [r], |rest|)
    requires ks == Survivors(plan, rs, |rest|) && ks' == Survivors(plan, rs + [r], |rest|)
    ensures Attended(plan, r) ==> ks == ks'
    ensures !Attended(plan, r) ==> RemoveAt(front + Gather(rest, ks), f + |front|) == front + Gather(rest, ks')
  {
    if Attended(plan, r) {
      IdleMore(plan, rs, r);
      KeptMore(plan, rs, r, |rest|);
    } else if r < |rest| {
      ReadInside(plan, rs, f, r, |rest|, ks, ks');
      RemoveGathered(front, rest, ks, f);
    } else {
      ReadBehind(plan, rs, f, r, |rest|, ks, ks');
      RemoveLast(front, rest, ks, f);
    }
  }

  // ----- ranges

  /** Where position t stands after the loop: as many places in front as positions kept below it. */
  function Rank(plan: seq<seq<Rng>>, rs: seq<int>, t: int): nat
    requires t >= 0
  {
    |KeptBelow(plan, rs, t)|
  }

  function Ranked(plan: seq<seq<Rng>>, rs: seq<int>, r: Rng): Rng
    requires r.start >= 0 && r.end >= 0
  {
    Rng(Rank(plan, rs, r.start), Rank(plan, rs, r.end))
  }

  lemma {:induction false} RankMoves(plan: seq<seq<Rng>>, rs: seq<int>, f: nat, r: nat, t: nat)
    requires Rising(rs, r) && r == f + IdleAmong(plan, rs) && !Attended(plan, r) && Attended(plan, t)
    ensures Rank(plan, rs + [r], t) == Moved(Rank(plan, rs, t), f)
  {
    KeptMore(plan, rs, r, t);
    KeptCount(plan, rs, r);
    if t < r {
      KeptAt(plan, rs, r, t);
    } else {
      KeptAt(plan, rs, t, r);
    }
  }

  lemma {:induction false} RankStays(plan: seq<seq<Rng>>, rs: seq<int>, r: nat, t: nat)
    requires r !in rs && Attended(plan, r)
    ensures Rank(plan, rs + [r], t) == Rank(plan, rs, t)
  {
    KeptMore(plan, rs, r, t);
  }

  lemma {:induction false} RangeAttended(plan: seq<seq<Rng>>, hi: int, i: nat, k: nat)
    requires PlanOrdered(plan, hi) && i < |plan| && k < |plan[i]|
    ensures var r := plan[i][k];
            0 <= r.start <= r.end && Attended(plan, r.start) && Attended(plan, r.end)
  {
    var r := plan[i][k];
    assert Ordered(plan[i], 0, hi);
    assert Covers(plan[i], r.start) && Covers(plan[i], r.end);
  }

  /** The loop leaves every range in its place among the ranges of its request, and moves each of its
      ends up by the kept positions alone. */
  lemma {:induction false} RangesMove(plan: seq<seq<Rng>>, fs: seq<int>, c: int, hi: int, i: nat, k: nat)
    requires PlanOrdered(plan, hi) && Rising(fs, c) && i < |plan| && k < |plan[i]|
    ensures 0 <= plan[i][k].start <= plan[i][k].end && |DeleteIdle(plan, fs)[i]| == |plan[i]|
    ensures DeleteIdle(plan, fs)[i][k] == Ranked(plan, Reads(plan, fs), plan[i][k])
  {
    RangeAttended(plan, hi, i, k);
    if fs == [] {
      AllKept(plan, plan[i][k].start);
      AllKept(plan, plan[i][k].end);
    } else {
      var front, f := fs[..|fs| - 1], fs[|fs| - 1];
      RangesMove(plan, front, f, hi, i, k);
      var r := LastRead(plan, fs, front, f, c, hi);
      ReadsStep(plan, fs);
      RangeStep(plan, Reads(plan, front), f, r, plan[i][k]);
      OneRangeStep(plan, fs, i, k, r);
    }
  }

  lemma {:induction false} OneRangeStep(plan: seq<seq<Rng>>, fs: seq<int>, i: nat, k: nat, r: int)
    requires fs != [] && i < |plan| && k < |DeleteIdle(plan, fs[..|fs| - 1])[i]|
    requires Attended(DeleteIdle(plan, fs[..|fs| - 1]), fs[|fs| - 1]) == Attended(plan, r)
    ensures |DeleteIdle(plan, fs)[i]| == |DeleteIdle(plan, fs[..|fs| - 1])[i]|
    ensures var q, f := DeleteIdle(plan, fs[..|fs| - 1])[i][k], fs[|fs| - 1];
            DeleteIdle(plan, fs)[i][k] == if Attended(plan, r) then q else Rng(Moved(q.start, f), Moved(q.end, f))
  {
  }

  lemma {:induction false} RangeStep(plan: seq<seq<Rng>>, rs: seq<int>, f: nat, r: nat, q: Rng)
    requires Rising(rs, r) && r == f + IdleAmong(plan, rs)
    requires 0 <= q.start <= q.end && Attended(plan, q.start) && Attended(plan, q.end)
    ensures var m := Ranked(plan, rs, q);
            Ranked(plan, rs + [r], q) == if Attended(plan, r) then m else Rng(Moved(m.start, f), Moved(m.end, f))
  {
    if Attended(plan, r) {
      RankStays(plan, rs, r, q.start);
      RankStays(plan, rs, r, q.end);
    } else {
      RankMoves(plan, rs, f, r, q.start);
      RankMoves(plan, rs, f, r, q.end);
    }
  }

  /** An attended position finds its own entry at its new place, if that is inside the array. */
  lemma {:induction false} EntryAtRank(plan: seq<seq<Rng>>, rs: seq<int>, hi: nat, t: nat)
    requires EnoughKept(plan, rs, hi) && t < hi && Attended(plan, t)
    requires Rank(plan, rs, t) < |Survivors(plan, rs, hi)|
    ensures Survivors(plan, rs, hi)[Rank(plan, rs, t)] == t
  {
    KeptAt(plan, rs, hi, t);
  }
}
