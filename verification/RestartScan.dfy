/** What the deletion loop of the restart reads. It goes through candidate positions taken before its
    own deletions, so after d deletions the candidate f stands for position f + d of the plan it
    started from. One pass over the candidates and the attended positions of that plan tells
    everything about the result. */
module RestartScan {
  import opened RestartPlan

  /** How many of the positions nobody attends. */
  function IdleAmong(plan: seq<seq<Rng>>, ps: seq<int>): (n: nat)
    ensures n <= |ps|
  {
    if ps == [] then 0
    else IdleAmong(plan, ps[..|ps| - 1]) + (if Attended(plan, ps[|ps| - 1]) then 0 else 1)
  }

  lemma {:induction false} IdleMore(plan: seq<seq<Rng>>, rs: seq<int>, r: int)
    ensures IdleAmong(plan, rs + [r]) == IdleAmong(plan, rs) + (if Attended(plan, r) then 0 else 1)
  {
    assert (rs + [r])[..|rs|] == rs;
  }

  /** The positions of the plan that the loop reads, one for each candidate. */
  function Reads(plan: seq<seq<Rng>>, fs: seq<int>): (rs: seq<int>)
    ensures |rs| == |fs|
  {
    if fs == [] then []
    else
      var rs := Reads(plan, fs[..|fs| - 1]);
      rs + [fs[|fs| - 1] + IdleAmong(plan, rs)]
  }

  /** How many entries are m or more. */
  function AtLeast(s: seq<int>, m: int): nat {
    if s == [] then 0 else AtLeast(s[..|s| - 1], m) + (if s[|s| - 1] >= m then 1 else 0)
  }

  /** Increasing positions below c. */
  ghost predicate Rising(fs: seq<int>, c: int) {
    && (forall k :: 0 <= k < |fs| ==> 0 <= fs[k] < c)
    && (forall j, k :: 0 <= j < k < |fs| ==> fs[j] < fs[k])
  }

  lemma {:induction false} RisingFits(fs: seq<int>, hi: int)
    requires hi >= 0 && Rising(fs, hi)
    ensures |fs| <= hi
    decreases |fs|
  {
    if fs != [] {
      RisingFits(fs[..|fs| - 1], fs[|fs| - 1]);
    }
  }

  ghost predicate FullyAttended(plan: seq<seq<Rng>>, lo: int, hi: int) {
    forall t :: lo <= t < hi ==> Attended(plan, t)
  }

  /** Every idle position below m is among those read. */
  ghost predicate NoneMissed(plan: seq<seq<Rng>>, rs: seq<int>, m: int) {
    forall t :: 0 <= t < m ==> Attended(plan, t) || t in rs
  }

  /** One past the last attended position; 0 if there is none. */
  function PlanEnd(plan: seq<seq<Rng>>): (m: int)
    ensures m >= 0
  {
    if plan == [] then 0
    else
      var m, rs := PlanEnd(plan[..|plan| - 1]), plan[|plan| - 1];
      if rs != [] && rs[|rs| - 1].end + 1 > m then rs[|rs| - 1].end + 1 else m
  }

  /** The ranges lie below e, and someone attends the position before e. */
  ghost predicate EndsAt(plan: seq<seq<Rng>>, e: int) {
    e >= 0 && PlanOrdered(plan, e) && (e > 0 ==> Attended(plan, e - 1))
  }

  lemma {:induction false} EndsAtPlanEnd(plan: seq<seq<Rng>>, hi: int)
    requires PlanOrdered(plan, hi)
    ensures EndsAt(plan, PlanEnd(plan)) && (hi >= 0 ==> PlanEnd(plan) <= hi)
  {
    if plan != [] {
      var n := |plan| - 1;
      var front, rs := plan[..n], plan[n];
      EndsAtPlanEnd(front, hi);
      assert Ordered(rs, 0, hi);
      var m, e := PlanEnd(front), PlanEnd(plan);
      forall i | 0 <= i < |plan| ensures Ordered(plan[i], 0, e) {
        if i < n {
          assert Ordered(front[i], 0, m);
        }
      }
      if e > m {
        assert rs[|rs| - 1].start <= e - 1 <= rs[|rs| - 1].end;
        assert Covers(plan[n], e - 1);
      } else if e > 0 {
        var i :| 0 <= i < |front| && Covers(front[i], e - 1);
        assert Covers(plan[i], e - 1);
      }
    }
  }

  lemma {:induction false} AttendedBelow(plan: seq<seq<Rng>>, e: int, t: int)
    requires PlanOrdered(plan, e) && Attended(plan, t)
    ensures 0 <= t < e
  {
    var i :| 0 <= i < |plan| && Covers(plan[i], t);
    assert Ordered(plan[i], 0, e);
  }

  lemma {:induction false} EndUnique(plan: seq<seq<Rng>>, e: int)
    requires EndsAt(plan, e)
    ensures PlanEnd(plan) == e
  {
    EndsAtPlanEnd(plan, e);
    if e > 0 {
      AttendedBelow(plan, PlanEnd(plan), e - 1);
    }
  }

  // ----- the loop and its reads

  lemma {:induction false} AttendedAfterMove(plan: seq<seq<Rng>>, f: int, hi: int, t: int)
    requires PlanOrdered(plan, hi) && f >= 0 && !Attended(plan, f)
    ensures Attended(DeleteIfIdle(plan, f), t) <==> Attended(plan, if t >= f then t + 1 else t)
  {
    var u, moved := if t >= f then t + 1 else t, DeleteIfIdle(plan, f);
    forall i: nat | i < |plan| ensures Covers(moved[i], t) <==> Covers(plan[i], u) {
      assert !Covers(plan[i], f);
      MoveUpFacts(plan[i], f, 0, hi);
    }
    if Attended(plan, u) {
      var i :| 0 <= i < |plan| && Covers(plan[i], u);
      assert Covers(moved[i], t);
    }
  }

  /** p is the plan moved up by d from position f on. */
  ghost predicate MovedFrom(plan: seq<seq<Rng>>, p: seq<seq<Rng>>, f: int, d: int) {
    forall t :: t >= f ==> (Attended(p, t) <==> Attended(plan, t + d))
  }

  lemma {:induction false} MovedStep(plan: seq<seq<Rng>>, p: seq<seq<Rng>>, f: int, c: int, d: nat, hi: int)
    requires PlanOrdered(p, hi) && 0 <= f < c && MovedFrom(plan, p, f, d)
    ensures MovedFrom(plan, DeleteIfIdle(p, f), c, d + (if Attended(plan, f + d) then 0 else 1))
  {
    assert Attended(p, f) <==> Attended(plan, f + d);
    if !Attended(p, f) {
      forall t | t >= c ensures Attended(DeleteIfIdle(p, f), t) <==> Attended(plan, t + (d + 1)) {
        AttendedAfterMove(p, f, hi, t);
        assert Attended(p, t + 1) <==> Attended(plan, t + 1 + d);
      }
    }
  }

  /** After the loop, from the last candidate on, the plan is the old one moved up by the deletions. */
  lemma {:induction false} ReadsRight(plan: seq<seq<Rng>>, fs: seq<int>, c: int, hi: int)
    requires PlanOrdered(plan, hi) && Rising(fs, c)
    ensures PlanOrdered(DeleteIdle(plan, fs), hi)
    ensures MovedFrom(plan, DeleteIdle(plan, fs), c, IdleAmong(plan, Reads(plan, fs)))
    ensures forall r :: r in Reads(plan, fs) ==> r < c + IdleAmong(plan, Reads(plan, fs))
  {
    DeleteIdleKeeps(plan, fs, hi);
    if fs != [] {
      var front, f := fs[..|fs| - 1], fs[|fs| - 1];
      ReadsRight(plan, front, f, hi);
      IdleMore(plan, Reads(plan, front), f + IdleAmong(plan, Reads(plan, front)));
      MovedStep(plan, DeleteIdle(plan, front), f, c, IdleAmong(plan, Reads(plan, front)), hi);
    }
  }

  /** p has no gap below c exactly when every idle position up to there has been read. */
  ghost predicate GapsRead(plan: seq<seq<Rng>>, p: seq<seq<Rng>>, rs: seq<int>, c: int) {
    FullyAttended(p, 0, c) <==> NoneMissed(plan, rs, c + IdleAmong(plan, rs))
  }

  lemma {:induction false} GapsMissed(plan: seq<seq<Rng>>, fs: seq<int>, c: int, hi: int)
    requires PlanOrdered(plan, hi) && Rising(fs, c) && c >= 0
    ensures GapsRead(plan, DeleteIdle(plan, fs), Reads(plan, fs), c)
  {
    if fs != [] {
      var front, f := fs[..|fs| - 1], fs[|fs| - 1];
      GapsMissed(plan, front, f, hi);
      ReadsRight(plan, front, f, hi);
      GapsStep(plan, DeleteIdle(plan, front), DeleteIdle(plan, fs), Reads(plan, front), Reads(plan, fs), f, c, hi);
    }
  }

  lemma {:induction false} GapsStep(
      plan: seq<seq<Rng>>, p: seq<seq<Rng>>, p': seq<seq<Rng>>, rs: seq<int>, rs': seq<int>, f: int, c: int, hi: int)
    requires PlanOrdered(p, hi) && 0 <= f < c && MovedFrom(plan, p, f, IdleAmong(plan, rs))
    requires (forall x :: x in rs ==> x < f + IdleAmong(plan, rs)) && GapsRead(plan, p, rs, f)
    requires p' == DeleteIfIdle(p, f) && rs' == rs + [f + IdleAmong(plan, rs)]
    ensures GapsRead(plan, p', rs', c)
  {
    var d := IdleAmong(plan, rs);
    IdleMore(plan, rs, f + d);
    assert Attended(p, f) <==> Attended(plan, f + d);
    if Attended(p, f) {
      GapsKept(plan, p, rs, f, c, d, f + d);
    } else {
      forall t ensures Attended(p', t) <==> Attended(p, if t >= f then t + 1 else t) {
        AttendedAfterMove(p, f, hi, t);
      }
      GapsDeleted(plan, p, p', rs, f, c, d);
    }
  }

  lemma {:induction false} GapsKept(
      plan: seq<seq<Rng>>, p: seq<seq<Rng>>, rs: seq<int>, f: int, c: int, d: nat, r: int)
    requires 0 <= f < c && r == f + d && Attended(plan, r)
    requires FullyAttended(p, 0, f) <==> NoneMissed(plan, rs, f + d)
    requires MovedFrom(plan, p, f, d) && forall x :: x in rs ==> x < f + d
    ensures FullyAttended(p, 0, c) <==> NoneMissed(plan, rs + [r], c + d)
  {
    if FullyAttended(p, 0, c) {
      forall t | 0 <= t < c + d ensures Attended(plan, t) || t in rs + [r] {
        if t >= f + d {
          assert Attended(p, t - d);
        }
      }
    }
    if NoneMissed(plan, rs + [r], c + d) {
      forall t | f <= t < c ensures Attended(p, t) {
        assert Attended(plan, t + d) || t + d in rs + [r];
      }
    }
  }

  lemma {:induction false} GapsDeleted(
      plan: seq<seq<Rng>>, p: seq<seq<Rng>>, p': seq<seq<Rng>>, rs: seq<int>, f: int, c: int, d: nat)
    requires 0 <= f < c
    requires FullyAttended(p, 0, f) <==> NoneMissed(plan, rs, f + d)
    requires MovedFrom(plan, p, f, d) && forall x :: x in rs ==> x < f + d
    requires forall t :: Attended(p', t) <==> Attended(p, if t >= f then t + 1 else t)
    ensures FullyAttended(p', 0, c) <==> NoneMissed(plan, rs + [f + d], c + d + 1)
  {
    if FullyAttended(p', 0, c) {
      forall t | 0 <= t < f ensures Attended(p, t) {
        assert Attended(p', t);
      }
      forall t | 0 <= t < c + d + 1 ensures Attended(plan, t) || t in rs + [f + d] {
        if t > f + d {
          assert Attended(p', t - d - 1);
        }
      }
    }
    if NoneMissed(plan, rs + [f + d], c + d + 1) {
      forall t | 0 <= t < c ensures Attended(p', t) {
        if t >= f {
          assert Attended(plan, t + 1 + d) || t + 1 + d in rs + [f + d];
        }
      }
    }
  }

  // ----- where the ranges end

  /** Deletions past the end of the ranges do not move the end; all others move it by one. */
  function EndAfter(plan: seq<seq<Rng>>, rs: seq<int>, m: int): int {
    m - (IdleAmong(plan, rs) - AtLeast(rs, m))
  }

  /** The state of the loop after all candidates below c: the ranges end at e, and either everything
      so far was read before the end, or the loop has passed the end. */
  ghost predicate LoopAt(plan: seq<seq<Rng>>, p: seq<seq<Rng>>, rs: seq<int>, m: int, c: int, e: int) {
    && e == EndAfter(plan, rs, m) && EndsAt(p, e) && (AtLeast(rs, m) > 0 ==> c > e)
    && (FullyAttended(p, 0, e) <==> NoneMissed(plan, rs, m))
  }

  lemma {:induction false} LoopEnd(plan: seq<seq<Rng>>, fs: seq<int>, m: int, c: int)
    requires EndsAt(plan, m) && Rising(fs, c)
    ensures LoopAt(plan, DeleteIdle(plan, fs), Reads(plan, fs), m, c, EndAfter(plan, Reads(plan, fs), m))
  {
    if fs != [] {
      var front, f := fs[..|fs| - 1], fs[|fs| - 1];
      LoopEnd(plan, front, m, f);
      ReadsRight(plan, front, f, m);
      LoopStep(plan, fs, f, m, c, DeleteIdle(plan, front), Reads(plan, front));
    }
  }

  lemma {:induction false} LoopStep(
      plan: seq<seq<Rng>>, fs: seq<int>, f: int, m: int, c: int, p: seq<seq<Rng>>, rs: seq<int>)
    requires EndsAt(plan, m) && Rising(fs, c) && fs != [] && f == fs[|fs| - 1]
    requires p == DeleteIdle(plan, fs[..|fs| - 1]) && rs == Reads(plan, fs[..|fs| - 1])
    requires LoopAt(plan, p, rs, m, f, EndAfter(plan, rs, m)) && MovedFrom(plan, p, f, IdleAmong(plan, rs))
    ensures LoopAt(plan, DeleteIdle(plan, fs), Reads(plan, fs), m, c, EndAfter(plan, Reads(plan, fs), m))
  {
    assert DeleteIdle(plan, fs) == DeleteIfIdle(p, f) && Reads(plan, fs) == rs + [f + IdleAmong(plan, rs)];
    if f + IdleAmong(plan, rs) >= m {
      LateRead(plan, p, DeleteIdle(plan, fs), rs, Reads(plan, fs), f, m, c, EndAfter(plan, rs, m));
    } else {
      EarlyRead(plan, p, DeleteIdle(plan, fs), rs, Reads(plan, fs), f, m, EndAfter(plan, rs, m));
      EarlyGaps(plan, fs, m, c, EndAfter(plan, Reads(plan, fs), m));
    }
  }

  /** A candidate read past the end: nothing is attended from there on. */
  lemma {:induction false} LateRead(
      plan: seq<seq<Rng>>, p: seq<seq<Rng>>, p': seq<seq<Rng>>, rs: seq<int>, rs': seq<int>, f: int, m: int, c: int,
      e: int)
    requires EndsAt(plan, m) && LoopAt(plan, p, rs, m, f, e) && MovedFrom(plan, p, f, IdleAmong(plan, rs))
    requires 0 <= f < c && f + IdleAmong(plan, rs) >= m
    requires p' == DeleteIfIdle(p, f) && rs' == rs + [f + IdleAmong(plan, rs)]
    ensures LoopAt(plan, p', rs', m, c, EndAfter(plan, rs', m))
  {
    var r := f + IdleAmong(plan, rs);
    assert rs'[..|rs|] == rs;
    assert Attended(p, f) <==> Attended(plan, r);
    if Attended(plan, r) {
      AttendedBelow(plan, m, r);
    }
    DeleteIfIdleKeeps(p, f, e);
    forall t | t < f ensures Attended(p', t) <==> Attended(p, t) {
      AttendedAfterMove(p, f, e, t);
    }
    assert NoneMissed(plan, rs, m) <==> NoneMissed(plan, rs', m);
  }

  /** A candidate read before the end, as all earlier ones were. */
  lemma {:induction false} EarlyRead(
      plan: seq<seq<Rng>>, p: seq<seq<Rng>>, p': seq<seq<Rng>>, rs: seq<int>, rs': seq<int>, f: int, m: int, e: int)
    requires EndsAt(plan, m) && LoopAt(plan, p, rs, m, f, e) && MovedFrom(plan, p, f, IdleAmong(plan, rs))
    requires f >= 0 && f + IdleAmong(plan, rs) < m
    requires p' == DeleteIfIdle(p, f) && rs' == rs + [f + IdleAmong(plan, rs)]
    ensures AtLeast(rs', m) == 0 && EndsAt(p', EndAfter(plan, rs', m)) && f < EndAfter(plan, rs', m)
  {
    var r := f + IdleAmong(plan, rs);
    assert rs'[..|rs|] == rs;
    assert Attended(p, f) <==> Attended(plan, r);
    DeleteIfIdleKeeps(p, f, e);
    if !Attended(p, f) {
      assert r != m - 1;
      AttendedAfterMove(p, f, e, e - 2);
    }
  }

  lemma {:induction false} EarlyGaps(plan: seq<seq<Rng>>, fs: seq<int>, m: int, c: int, e: int)
    requires EndsAt(plan, m) && Rising(fs, c) && fs != [] && fs[|fs| - 1] < e && EndsAt(DeleteIdle(plan, fs), e)
    requires e == EndAfter(plan, Reads(plan, fs), m) && AtLeast(Reads(plan, fs), m) == 0
    ensures LoopAt(plan, DeleteIdle(plan, fs), Reads(plan, fs), m, c, e)
  {
    assert Rising(fs, e);
    GapsMissed(plan, fs, e, m);
  }

  // ----- late reads, counted

  lemma {:induction false} ReadsNotEarlier(plan: seq<seq<Rng>>, fs: seq<int>)
    ensures forall k :: 0 <= k < |fs| ==> Reads(plan, fs)[k] >= fs[k]
  {
    if fs != [] {
      ReadsNotEarlier(plan, fs[..|fs| - 1]);
    }
  }

  /** Every candidate below m is read below m. */
  ghost predicate InTime(fs: seq<int>, rs: seq<int>, m: int)
    requires |fs| == |rs|
  {
    forall k :: 0 <= k < |fs| && fs[k] < m ==> rs[k] < m
  }

  lemma {:induction false} InTimeCounts(fs: seq<int>, rs: seq<int>, m: int)
    requires |fs| == |rs| && forall k :: 0 <= k < |fs| ==> rs[k] >= fs[k]
    ensures AtLeast(rs, m) >= AtLeast(fs, m)
    ensures AtLeast(rs, m) == AtLeast(fs, m) <==> InTime(fs, rs, m)
  {
    if fs != [] {
      var n := |fs| - 1;
      InTimeCounts(fs[..n], rs[..n], m);
      assert InTime(fs, rs, m) <==> InTime(fs[..n], rs[..n], m) && (fs[n] < m ==> rs[n] < m);
    }
  }

  lemma {:induction false} NoneAtLeast(fs: seq<int>, m: int)
    requires forall k :: 0 <= k < |fs| ==> fs[k] < m
    ensures AtLeast(fs, m) == 0
  {
    if fs != [] {
      NoneAtLeast(fs[..|fs| - 1], m);
    }
  }

  lemma {:induction false} CoversTail(fs: seq<int>, m: int, hi: int)
    requires Rising(fs, hi) && m <= hi && forall t :: m <= t < hi ==> t in fs
    ensures AtLeast(fs, m) == hi - m
    decreases |fs|
  {
    if m < hi {
      assert hi - 1 in fs;
    }
    if fs != [] {
      var n := |fs| - 1;
      var front := fs[..n];
      if m < hi {
        assert hi - 1 in fs && fs[n] == hi - 1;
        forall t | m <= t < hi - 1 ensures t in front {
          assert t in fs;
          var k :| 0 <= k < |fs| && fs[k] == t;
          assert front[k] == t;
        }
        CoversTail(front, m, hi - 1);
      } else {
        NoneAtLeast(fs, m);
      }
    }
  }
}
