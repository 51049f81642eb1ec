/** When the rebuilt ranges fit the rebuilt schedule exactly, and when they do not. */
module RestartShape {
  import opened Ranges
  import opened Packing
  import opened Traces
  import opened TraceInvariant
  import opened Resume
  import opened Queues
  import opened Simulation
  import opened RestartPlan
  import opened Restart
  import opened RestartScan

  // ----- how long the rebuilt schedule is

  lemma {:induction false} OneEntry<T>(s: seq<T>, plan: seq<seq<Rng>>, fs: seq<int>, skip: nat)
    requires fs != [] && forall k :: 0 <= k < |fs| ==> fs[k] >= 0
    requires |DeleteEntries(s, plan, fs[..|fs| - 1], skip)| >= 1
    ensures |DeleteEntries(s, plan, fs, skip)| == |DeleteEntries(s, plan, fs[..|fs| - 1], skip)|
            - (if Attended(DeleteIdle(plan, fs[..|fs| - 1]), fs[|fs| - 1]) then 0 else 1)
  {
  }

  lemma {:induction false} OneRead(plan: seq<seq<Rng>>, fs: seq<int>, c: int, hi: int)
    requires fs != [] && PlanOrdered(plan, hi) && Rising(fs, c)
    ensures IdleAmong(plan, Reads(plan, fs)) == IdleAmong(plan, Reads(plan, fs[..|fs| - 1]))
            + (if Attended(DeleteIdle(plan, fs[..|fs| - 1]), fs[|fs| - 1]) then 0 else 1)
  {
    var front, f := fs[..|fs| - 1], fs[|fs| - 1];
    ReadsRight(plan, front, f, hi);
    var rs := Reads(plan, front);
    IdleMore(plan, rs, f + IdleAmong(plan, rs));
    assert Attended(DeleteIdle(plan, front), f) <==> Attended(plan, f + IdleAmong(plan, rs));
  }

  lemma {:induction false} EntriesLeft<T>(
      s: seq<T>, plan: seq<seq<Rng>>, fs: seq<int>, skip: nat, c: int, hi: int)
    requires |fs| <= |s| && PlanOrdered(plan, hi) && Rising(fs, c)
    ensures |DeleteEntries(s, plan, fs, skip)| == |s| - IdleAmong(plan, Reads(plan, fs))
  {
    if fs != [] {
      EntriesLeft(s, plan, fs[..|fs| - 1], skip, fs[|fs| - 1], hi);
      OneRead(plan, fs, c, hi);
      OneEntry(s, plan, fs, skip);
    }
  }

  lemma {:induction false} RebuiltLength(inp: seq<int>, plan: seq<seq<Rng>>, steps: seq<bool>, stop: int, budget: int)
    requires Restartable(inp, plan, steps, stop, budget)
    ensures |RebuiltSteps(inp, plan, steps, stop, budget)|
            == |RecoveryBatches(inp, plan, steps, stop, budget)| + |steps| - (stop + 1)
               - IdleAmong(Trimmed(plan, steps, stop),
                           Reads(Trimmed(plan, steps, stop), FirstIters(plan, steps, stop)))
  {
    var hi := |steps| - (stop + 1);
    TrimmedFacts(plan, steps, stop);
    FirstItersFacts(plan, steps, stop);
    RisingFits(FirstIters(plan, steps, stop), hi);
    var bs := RecoveryBatches(inp, plan, steps, stop, budget);
    EntriesLeft(seq(|bs|, _ => true) + steps[stop + 1..], Trimmed(plan, steps, stop), FirstIters(plan, steps, stop),
                |bs|, hi, hi);
  }

  // ----- which positions can be idle

  lemma {:induction false} CutCovers(rs: seq<Rng>, stop: int, t: int)
    requires t >= 0
    ensures Covers(Cut(rs, stop), t) <==> Covers(rs, t + stop + 1)
    decreases |rs|
  {
    if rs != [] {
      CutCovers(rs[1..], stop, t);
      CoversCons(rs[0], rs[1..], t + stop + 1);
      assert rs == [rs[0]] + rs[1..];
      var c, tail := CutOne(rs[0], stop), Cut(rs[1..], stop);
      if c == [] {
        assert c + tail == tail;
      } else {
        CoversCons(c[0], tail, t);
        assert c + tail == [c[0]] + tail;
      }
    }
  }

  lemma {:induction false} CoversCons(r: Rng, rs: seq<Rng>, t: int)
    ensures Covers([r] + rs, t) <==> r.start <= t <= r.end || Covers(rs, t)
  {
    var all := [r] + rs;
    if r.start <= t <= r.end {
      assert all[0].start <= t <= all[0].end;
    }
    if Covers(rs, t) {
      var k :| 0 <= k < |rs| && rs[k].start <= t <= rs[k].end;
      assert all[k + 1].start <= t <= all[k + 1].end;
    }
  }

  lemma {:induction false} DropFirstCovers(rs: seq<Rng>, t: int)
    requires rs != [] && rs[0].start <= rs[0].end && t != rs[0].start
    ensures Covers(rs, t) ==> Covers(DropFirst(rs), t)
  {
    assert rs == [rs[0]] + rs[1..];
    CoversCons(rs[0], rs[1..], t);
    if rs[0].start + 1 <= rs[0].end {
      CoversCons(Rng(rs[0].start + 1, rs[0].end), rs[1..], t);
    }
  }

  /** Only the first iterations of the running requests can become idle. */
  lemma {:induction false} TrimmedAttended(plan: seq<seq<Rng>>, steps: seq<bool>, stop: int, t: int)
    requires PlanFor(plan, steps, stop) && FullyAttended(plan, 0, |steps|)
    requires 0 <= t < |steps| - (stop + 1) && t !in FirstIters(plan, steps, stop)
    ensures Attended(Trimmed(plan, steps, stop), t)
  {
    assert Attended(plan, t + stop + 1);
    var i: nat :| i < |plan| && Covers(plan[i], t + stop + 1);
    CutCovers(plan[i], stop, t);
    CutOrdered(plan[i], stop, 0, |steps|);
    if RunningAfter(plan, steps, stop, i) {
      FirstIterAt(plan, steps, stop, Cut(plan[i], stop)[0].start);
      assert IsFirst(plan, steps, stop, Cut(plan[i], stop)[0].start);
      DropFirstCovers(Cut(plan[i], stop), t);
    }
    assert Covers(Trimmed(plan, steps, stop)[i], t);
  }

  lemma {:induction false} TrimmedReady(
      plan: seq<seq<Rng>>, steps: seq<bool>, stop: int, t0: seq<seq<Rng>>, fs: seq<int>, hi: int)
    requires PlanFor(plan, steps, stop) && FullyAttended(plan, 0, |steps|) && hi == |steps| - (stop + 1)
    requires t0 == Trimmed(plan, steps, stop) && fs == FirstIters(plan, steps, stop)
    ensures PlanOrdered(t0, hi) && (forall k :: 0 <= k < |fs| ==> 0 <= fs[k] < hi)
    ensures forall t :: 0 <= t < hi && t !in fs ==> Attended(t0, t)
  {
    TrimmedFacts(plan, steps, stop);
    FirstItersFacts(plan, steps, stop);
    forall t | 0 <= t < hi && t !in fs ensures Attended(t0, t) {
      TrimmedAttended(plan, steps, stop, t);
    }
  }

  /** Every recovery prefill serves somebody. */
  lemma {:induction false} PrefillsAttended(
      inp: seq<int>, plan: seq<seq<Rng>>, steps: seq<bool>, stop: int, budget: int, b: nat)
    requires Restartable(inp, plan, steps, stop, budget) && b < |RecoveryBatches(inp, plan, steps, stop, budget)|
    ensures BatchesFor(RecoveryBatches(inp, plan, steps, stop, budget), |plan|)
    ensures var slots := RecoveryTrace(|plan|, RecoveryBatches(inp, plan, steps, stop, budget)).progress;
            |slots| == |plan| && exists i: nat :: i < |plan| && |slots[i]| == 2 && slots[i][0] == b
  {
    RecoveryPacks(inp, plan, steps, stop, budget);
    var bs, ids := RecoveryBatches(inp, plan, steps, stop, budget), RunningIds(plan, steps, stop, |plan|);
    assert forall k :: 0 <= k < |bs| ==> Fits(bs[k], budget);
    forall i | 0 <= i < |inp| ensures DoneBy(plan[i], stop) >= 0 {
      CutCounts(plan[i], stop);
    }
    SlotsUsed(inp, plan, ids, stop, bs, b);
  }

  lemma {:induction false} SlotsUsed(
      inp: seq<int>, plan: seq<seq<Rng>>, ids: seq<nat>, stop: int, batches: seq<seq<Prompt>>, b: nat)
    requires RecoveryFor(inp, plan, ids, stop, batches) && b < |batches|
    ensures BatchesFor(batches, |plan|)
    ensures var slots := RecoveryTrace(|plan|, batches).progress;
            |slots| == |plan| && exists i: nat :: i < |plan| && |slots[i]| == 2 && slots[i][0] == b
  {
    RecoveryFacts(inp, plan, ids, stop, batches);
    var slots := RecoveryTrace(|plan|, batches).progress;
    var i := SlotAttended(inp, plan, ids, stop, batches, b);
    SingleSlot(slots[i], b);
  }

  lemma {:induction false} SlotAttended(
      inp: seq<int>, plan: seq<seq<Rng>>, ids: seq<nat>, stop: int, batches: seq<seq<Prompt>>, b: nat) returns (i: nat)
    requires RecoveryFor(inp, plan, ids, stop, batches) && b < |batches|
    ensures BatchesFor(batches, |plan|)
    ensures var slots := RecoveryTrace(|plan|, batches).progress;
            i < |plan| == |slots| && Attends(slots[i], b)
  {
    RecoveryTraceFacts(inp, plan, ids, stop, batches);
    i := SomeoneAttends(RecoveryJob(inp, plan, stop), RecoveryTrace(|plan|, batches), b);
  }

  lemma {:induction false} SomeoneAttends(job: Job, tr: Trace, t: nat) returns (i: nat)
    requires job.lim.blockSize >= 1 && TraceInv(job, tr) && t < |tr.steps|
    ensures i < |tr.progress| && Attends(tr.progress[i], t)
  {
    assert LogExactAt(job, tr, t);
    i :| i < |tr.progress| && Attends(tr.progress[i], t);
  }

  lemma {:induction false} SingleSlot(r: seq<int>, b: int)
    requires r == [] || (|r| == 2 && r[0] == r[1])
    ensures Attends(r, b) ==> |r| == 2 && r[0] == b
  {
    if |r| == 2 {
      assert r[..|r| - 2] == [] && !Attends([], b);
    }
  }

  /** The restart is exact: the rebuilt ranges lie inside the rebuilt schedule and attend every
      iteration of it, so the last range ends at its last iteration. */
  ghost predicate ExactFit(plan: seq<seq<Rng>>, steps: seq<bool>) {
    PlanOrdered(plan, |steps|) && FullyAttended(plan, 0, |steps|)
  }

  lemma {:induction false} CoversBack(rs: seq<Rng>, slot: seq<int>, skip: nat, hi: int, t: int)
    requires Ordered(rs, 0, hi) && (slot == [] || (|slot| == 2 && 0 <= slot[0] < skip)) && t >= 0
    requires Covers(Rejoined(rs, slot, skip), t + skip)
    ensures Covers(rs, t)
  {
    var p, r := Plus(rs, skip), Rejoined(rs, slot, skip);
    var j :| 0 <= j < |r| && r[j].start <= t + skip <= r[j].end;
    if slot == [] {
      assert r[j] == p[j];
      assert rs[j].start <= t <= rs[j].end;
    } else if rs == [] || p[0].start > slot[0] + 1 {
      assert r == [Rng(slot[0], slot[0])] + p;
      assert r[j] == p[j - 1];
      assert rs[j - 1].start <= t <= rs[j - 1].end;
    } else {
      assert j > 0 ==> r[j] == p[j];
      assert rs[j].start <= t <= rs[j].end;
    }
  }

  lemma {:induction false} RejoinedCovers(rs: seq<Rng>, slot: seq<int>, skip: nat, hi: int, t: int)
    requires Ordered(rs, 0, hi) && (slot == [] || (|slot| == 2 && 0 <= slot[0] < skip))
    ensures t >= 0 ==> (Covers(rs, t) <==> Covers(Rejoined(rs, slot, skip), t + skip))
    ensures slot != [] ==> Covers(Rejoined(rs, slot, skip), slot[0])
  {
    var p, r := Plus(rs, skip), Rejoined(rs, slot, skip);
    if Covers(rs, t) {
      var k :| 0 <= k < |rs| && rs[k].start <= t <= rs[k].end;
      assert p[k].start <= t + skip <= p[k].end;
      if slot != [] {
        var j := if p[0].start > slot[0] + 1 then k + 1 else k;
        assert r[j].start <= t + skip <= r[j].end;
      }
    }
    if t >= 0 && Covers(r, t + skip) {
      CoversBack(rs, slot, skip, hi, t);
    }
    if slot != [] {
      assert r[0].start <= slot[0] <= r[0].end;
    }
  }

  /** One request after the restart. */
  lemma {:induction false} RebuiltAt(
      inp: seq<int>, plan: seq<seq<Rng>>, steps: seq<bool>, stop: int, budget: int, i: nat)
    returns (slot: seq<int>, skip: nat)
    requires Restartable(inp, plan, steps, stop, budget) && i < |plan|
    ensures BatchesFor(RecoveryBatches(inp, plan, steps, stop, budget), |plan|)
    ensures skip == |RecoveryBatches(inp, plan, steps, stop, budget)|
    ensures |RecoveryTrace(|plan|, RecoveryBatches(inp, plan, steps, stop, budget)).progress| == |plan|
    ensures slot == RecoveryTrace(|plan|, RecoveryBatches(inp, plan, steps, stop, budget)).progress[i]
    ensures slot == [] || (|slot| == 2 && 0 <= slot[0] < skip)
    ensures RebuiltPlan(inp, plan, steps, stop, budget)[i] == Rejoined(LeftOver(plan, steps, stop)[i], slot, skip)
  {
    RecoveryPacks(inp, plan, steps, stop, budget);
    skip := |RecoveryBatches(inp, plan, steps, stop, budget)|;
    slot := RecoveryTrace(|plan|, RecoveryBatches(inp, plan, steps, stop, budget)).progress[i];
  }

  lemma {:induction false} PrefillAttended(
      inp: seq<int>, plan: seq<seq<Rng>>, steps: seq<bool>, stop: int, budget: int, t: nat)
    requires Restartable(inp, plan, steps, stop, budget) && t < |RecoveryBatches(inp, plan, steps, stop, budget)|
    ensures Attended(RebuiltPlan(inp, plan, steps, stop, budget), t)
  {
    PrefillsAttended(inp, plan, steps, stop, budget, t);
    var slots := RecoveryTrace(|plan|, RecoveryBatches(inp, plan, steps, stop, budget)).progress;
    var i: nat :| i < |plan| && |slots[i]| == 2 && slots[i][0] == t;
    var slot, skip := RebuiltAt(inp, plan, steps, stop, budget, i);
    LeftOverFacts(plan, steps, stop, i);
    RejoinedCovers(LeftOver(plan, steps, stop)[i], slot, skip, |steps| - (stop + 1), 0);
    assert Covers(RebuiltPlan(inp, plan, steps, stop, budget)[i], t);
  }

  /** Behind the recovery prefills the rebuilt plan is what the loop has left. */
  lemma {:induction false} RestAttended(
      inp: seq<int>, plan: seq<seq<Rng>>, steps: seq<bool>, stop: int, budget: int, t: nat)
    requires Restartable(inp, plan, steps, stop, budget)
    ensures Attended(RebuiltPlan(inp, plan, steps, stop, budget), t + |RecoveryBatches(inp, plan, steps, stop, budget)|)
            <==> Attended(LeftOver(plan, steps, stop), t)
  {
    var left, all := LeftOver(plan, steps, stop), RebuiltPlan(inp, plan, steps, stop, budget);
    var n := |RecoveryBatches(inp, plan, steps, stop, budget)|;
    forall i: nat | i < |plan| ensures Covers(all[i], t + n) <==> Covers(left[i], t) {
      var slot, skip := RebuiltAt(inp, plan, steps, stop, budget, i);
      LeftOverFacts(plan, steps, stop, i);
      RejoinedCovers(left[i], slot, skip, |steps| - (stop + 1), t);
    }
    if Attended(left, t) {
      var i :| 0 <= i < |plan| && Covers(left[i], t);
      assert Covers(all[i], t + n);
    }
  }

  lemma {:induction false} RebuiltOrdered(
      inp: seq<int>, plan: seq<seq<Rng>>, steps: seq<bool>, stop: int, budget: int, left: seq<seq<Rng>>, len: nat)
    requires Restartable(inp, plan, steps, stop, budget) && left == LeftOver(plan, steps, stop)
             && PlanOrdered(left, len)
    ensures PlanOrdered(RebuiltPlan(inp, plan, steps, stop, budget),
                        |RecoveryBatches(inp, plan, steps, stop, budget)| + len)
  {
    forall i: nat | i < |plan|
      ensures Ordered(RebuiltPlan(inp, plan, steps, stop, budget)[i], 0,
                      |RecoveryBatches(inp, plan, steps, stop, budget)| + len)
    {
      var slot, skip := RebuiltAt(inp, plan, steps, stop, budget, i);
      RejoinedFacts(left[i], slot, skip, len);
    }
  }

  // ----- where the rebuilt plan ends

  /** What the loop starts from. */
  lemma {:induction false} LoopReady(plan: seq<seq<Rng>>, steps: seq<bool>, stop: int)
    requires PlanFor(plan, steps, stop)
    ensures PlanOrdered(Trimmed(plan, steps, stop), |steps| - (stop + 1))
    ensures EndsAt(Trimmed(plan, steps, stop), PlanEnd(Trimmed(plan, steps, stop)))
    ensures PlanEnd(Trimmed(plan, steps, stop)) <= |steps| - (stop + 1)
    ensures Rising(FirstIters(plan, steps, stop), |steps| - (stop + 1))
  {
    TrimmedFacts(plan, steps, stop);
    FirstItersFacts(plan, steps, stop);
    EndsAtPlanEnd(Trimmed(plan, steps, stop), |steps| - (stop + 1));
  }

  /** The rebuilt plan ends where the left-over one does, behind the recovery prefills. */
  lemma {:induction false} RebuiltEnd(
      inp: seq<int>, plan: seq<seq<Rng>>, steps: seq<bool>, stop: int, budget: int, e: int)
    requires Restartable(inp, plan, steps, stop, budget) && EndsAt(LeftOver(plan, steps, stop), e)
    ensures EndsAt(RebuiltPlan(inp, plan, steps, stop, budget), |RecoveryBatches(inp, plan, steps, stop, budget)| + e)
    ensures PlanEnd(RebuiltPlan(inp, plan, steps, stop, budget))
            == |RecoveryBatches(inp, plan, steps, stop, budget)| + e
  {
    var n := |RecoveryBatches(inp, plan, steps, stop, budget)|;
    RebuiltOrdered(inp, plan, steps, stop, budget, LeftOver(plan, steps, stop), e);
    if e > 0 {
      RestAttended(inp, plan, steps, stop, budget, e - 1);
    } else if n > 0 {
      PrefillAttended(inp, plan, steps, stop, budget, n - 1);
    }
    EndUnique(RebuiltPlan(inp, plan, steps, stop, budget), n + e);
  }

  /** Of every plan: the largest end is one below the length of the rebuilt schedule, as the code
      asserts, if and only if as many candidates are read behind the last attended position as
      there are positions behind it. */
  lemma {:induction false} RestartEndsIff(
      inp: seq<int>, plan: seq<seq<Rng>>, steps: seq<bool>, stop: int, budget: int,
      t0: seq<seq<Rng>>, rs: seq<int>, m: int)
    requires Restartable(inp, plan, steps, stop, budget)
    requires t0 == Trimmed(plan, steps, stop) && rs == Reads(t0, FirstIters(plan, steps, stop)) && m == PlanEnd(t0)
    ensures PlanEnd(RebuiltPlan(inp, plan, steps, stop, budget)) - |RebuiltSteps(inp, plan, steps, stop, budget)|
            == AtLeast(rs, m) - (|steps| - (stop + 1) - m)
  {
    LoopReady(plan, steps, stop);
    LoopEnd(t0, FirstIters(plan, steps, stop), m, |steps| - (stop + 1));
    RebuiltLength(inp, plan, steps, stop, budget);
    RebuiltEnd(inp, plan, steps, stop, budget, EndAfter(t0, rs, m));
  }

  /** Only candidates are idle, so all positions behind the last attended one are candidates. */
  lemma {:induction false} CandidatesBehind(
      plan: seq<seq<Rng>>, steps: seq<bool>, stop: int, t0: seq<seq<Rng>>, fs: seq<int>, hi: int)
    requires PlanFor(plan, steps, stop) && FullyAttended(plan, 0, |steps|) && hi == |steps| - (stop + 1)
    requires t0 == Trimmed(plan, steps, stop) && fs == FirstIters(plan, steps, stop)
    ensures AtLeast(fs, PlanEnd(t0)) == hi - PlanEnd(t0)
    ensures AtLeast(Reads(t0, fs), PlanEnd(t0)) >= hi - PlanEnd(t0)
    ensures AtLeast(Reads(t0, fs), PlanEnd(t0)) == hi - PlanEnd(t0) <==> InTime(fs, Reads(t0, fs), PlanEnd(t0))
  {
    var m := PlanEnd(t0);
    LoopReady(plan, steps, stop);
    TrimmedReady(plan, steps, stop, t0, fs, hi);
    forall t | m <= t < hi ensures t in fs {
      if t !in fs {
        AttendedBelow(t0, m, t);
      }
    }
    CoversTail(fs, m, hi);
    ReadsNotEarlier(t0, fs);
    InTimeCounts(fs, Reads(t0, fs), m);
  }

  /** The final assertion of the restart of a schedule without idle iterations: the largest end is
      one below the length of the rebuilt schedule if and only if every candidate before the end of
      the trimmed plan is also read before it. Otherwise the ranges stick out. */
  lemma {:induction false} RestartAssertionIff(
      inp: seq<int>, plan: seq<seq<Rng>>, steps: seq<bool>, stop: int, budget: int, t0: seq<seq<Rng>>, fs: seq<int>)
    requires Restartable(inp, plan, steps, stop, budget) && FullyAttended(plan, 0, |steps|)
    requires t0 == Trimmed(plan, steps, stop) && fs == FirstIters(plan, steps, stop)
    ensures PlanEnd(RebuiltPlan(inp, plan, steps, stop, budget)) == |RebuiltSteps(inp, plan, steps, stop, budget)|
            <==> InTime(fs, Reads(t0, fs), PlanEnd(t0))
    ensures PlanOrdered(RebuiltPlan(inp, plan, steps, stop, budget), |RebuiltSteps(inp, plan, steps, stop, budget)|)
            <==> InTime(fs, Reads(t0, fs), PlanEnd(t0))
  {
    CandidatesBehind(plan, steps, stop, t0, fs, |steps| - (stop + 1));
    RestartEndsIff(inp, plan, steps, stop, budget, t0, Reads(t0, fs), PlanEnd(t0));
    var p, l := RebuiltPlan(inp, plan, steps, stop, budget), |RebuiltSteps(inp, plan, steps, stop, budget)|;
    RestartConserves(inp, plan, steps, stop, budget);
    EndsAtPlanEnd(p, |RecoveryBatches(inp, plan, steps, stop, budget)| + |steps| - (stop + 1));
    if PlanOrdered(p, l) {
      EndsAtPlanEnd(p, l);
    }
  }

  lemma {:induction false} RebuiltGapless(
      inp: seq<int>, plan: seq<seq<Rng>>, steps: seq<bool>, stop: int, budget: int, e: nat)
    requires Restartable(inp, plan, steps, stop, budget)
    ensures FullyAttended(RebuiltPlan(inp, plan, steps, stop, budget), 0,
                          |RecoveryBatches(inp, plan, steps, stop, budget)| + e)
            <==> FullyAttended(LeftOver(plan, steps, stop), 0, e)
  {
    var p, left := RebuiltPlan(inp, plan, steps, stop, budget), LeftOver(plan, steps, stop);
    var n := |RecoveryBatches(inp, plan, steps, stop, budget)|;
    forall t: nat | t < n ensures Attended(p, t) {
      PrefillAttended(inp, plan, steps, stop, budget, t);
    }
    forall t: nat ensures Attended(p, t + n) <==> Attended(left, t) {
      RestAttended(inp, plan, steps, stop, budget, t);
    }
    if FullyAttended(left, 0, e) {
      forall t | 0 <= t < n + e ensures Attended(p, t) {
        if t >= n {
          assert Attended(p, (t - n) + n) <==> Attended(left, t - n);
        }
      }
    }
    if FullyAttended(p, 0, n + e) {
      forall t: nat | t < e ensures Attended(left, t) {
        assert Attended(p, t + n);
      }
    }
  }

  /** The rebuilt plan fits the rebuilt schedule exactly, without gaps, if and only if the assertion
      holds and every idle position before the end of the trimmed plan has been read. */
  lemma {:induction false} RestartExactIff(
      inp: seq<int>, plan: seq<seq<Rng>>, steps: seq<bool>, stop: int, budget: int,
      t0: seq<seq<Rng>>, fs: seq<int>, m: int)
    requires Restartable(inp, plan, steps, stop, budget) && FullyAttended(plan, 0, |steps|)
    requires t0 == Trimmed(plan, steps, stop) && fs == FirstIters(plan, steps, stop) && m == PlanEnd(t0)
    ensures ExactFit(RebuiltPlan(inp, plan, steps, stop, budget), RebuiltSteps(inp, plan, steps, stop, budget))
            <==> InTime(fs, Reads(t0, fs), m) && NoneMissed(t0, Reads(t0, fs), m)
  {
    RestartAssertionIff(inp, plan, steps, stop, budget, t0, fs);
    if InTime(fs, Reads(t0, fs), m) {
      LoopReady(plan, steps, stop);
      LoopEnd(t0, fs, m, |steps| - (stop + 1));
      var e := EndAfter(t0, Reads(t0, fs), m);
      RebuiltEnd(inp, plan, steps, stop, budget, e);
      RebuiltGapless(inp, plan, steps, stop, budget, e);
    }
  }

  lemma {:induction false} OneReadInTime(t0: seq<seq<Rng>>, fs: seq<int>, hi: int)
    requires |fs| <= 1 && PlanOrdered(t0, hi) && forall t :: 0 <= t < hi && t !in fs ==> Attended(t0, t)
    ensures PlanEnd(t0) <= hi || hi < 0
    ensures InTime(fs, Reads(t0, fs), PlanEnd(t0)) && NoneMissed(t0, Reads(t0, fs), PlanEnd(t0))
  {
    EndsAtPlanEnd(t0, hi);
    if fs != [] {
      assert fs == [fs[0]] && fs[..0] == [];
      assert Reads(t0, []) == [] && Reads(t0, fs) == [fs[0]];
    }
  }

  /** A restart with at most one first iteration after the stop is exact. */
  lemma {:induction false} RestartExact(inp: seq<int>, plan: seq<seq<Rng>>, steps: seq<bool>, stop: int, budget: int)
    requires Restartable(inp, plan, steps, stop, budget) && FullyAttended(plan, 0, |steps|)
    requires |FirstIters(plan, steps, stop)| <= 1
    ensures ExactFit(RebuiltPlan(inp, plan, steps, stop, budget), RebuiltSteps(inp, plan, steps, stop, budget))
  {
    var t0, fs, hi := Trimmed(plan, steps, stop), FirstIters(plan, steps, stop), |steps| - (stop + 1);
    TrimmedReady(plan, steps, stop, t0, fs, hi);
    OneReadInTime(t0, fs, hi);
    RestartExactIff(inp, plan, steps, stop, budget, t0, fs, PlanEnd(t0));
  }

  // ----- simulated schedules restart exactly

  lemma {:induction false} CountAppend(rs: seq<Rng>, r: Rng, stop: int)
    ensures Count(rs + [r]) == Count(rs) + r.end - r.start + 1
    ensures DoneBy(rs + [r], stop) == DoneBy(rs, stop) + DoneInRange(r.start, r.end, stop)
    decreases |rs|
  {
    if rs == [] {
      assert rs + [r] == [r];
    } else {
      CountAppend(rs[1..], r, stop);
      assert (rs + [r])[1..] == rs[1..] + [r];
    }
  }

  lemma {:induction false} CoversAppend(rs: seq<Rng>, r: Rng, t: int)
    ensures Covers(rs + [r], t) <==> Covers(rs, t) || r.start <= t <= r.end
  {
    var all := rs + [r];
    if Covers(rs, t) {
      var k :| 0 <= k < |rs| && rs[k].start <= t <= rs[k].end;
      assert all[k].start <= t <= all[k].end;
    }
    if r.start <= t <= r.end {
      assert all[|rs|].start <= t <= all[|rs|].end;
    }
  }

  /** The flat encoding and the list of ranges say the same. */
  lemma {:induction false} PairsFacts(r: seq<int>, bound: int, stop: int)
    requires Canonical(r, bound)
    ensures Ordered(Pairs(r), 0, bound)
    ensures Count(Pairs(r)) == Total(r) && DoneBy(Pairs(r), stop) == FinishedBy(r, stop)
    ensures forall t :: Covers(Pairs(r), t) <==> Attends(r, t)
    decreases |r|
  {
    if r != [] {
      var n := |r|;
      var front, last := Pairs(r[..n - 2]), Rng(r[n - 2], r[n - 1]);
      PairsFacts(r[..n - 2], r[n - 2] - 1, stop);
      CountAppend(front, last, stop);
      forall t ensures Covers(Pairs(r), t) <==> Attends(r, t) {
        CoversAppend(front, last, t);
      }
    }
  }

  function PlanOf(tr: Trace): (p: seq<seq<Rng>>)
    ensures |p| == |tr.progress| && forall i :: 0 <= i < |p| ==> p[i] == Pairs(tr.progress[i])
  {
    seq(|tr.progress|, i requires 0 <= i < |tr.progress| => Pairs(tr.progress[i]))
  }

  /** The first iteration after the cut, and nothing before it. */
  lemma {:induction false} CutFirst(rs: seq<Rng>, stop: int, lo: int, hi: int)
    requires Ordered(rs, lo, hi) && Cut(rs, stop) != []
    ensures var s := Cut(rs, stop)[0].start + stop + 1;
            && s > stop && Covers(rs, s) && forall t :: stop < t < s ==> !Covers(rs, t)
  {
    CutOrdered(rs, stop, lo, hi);
    var c := Cut(rs, stop);
    var s := c[0].start + stop + 1;
    assert Covers(c, c[0].start);
    CutCovers(rs, stop, c[0].start);
    forall t | stop < t < s ensures !Covers(rs, t) {
      CutCovers(rs, stop, t - stop - 1);
      assert forall k :: 0 <= k < |c| ==> c[0].start <= c[k].start;
    }
  }

  /** All requests running at the stop resume at the same decode step. */
  lemma {:induction false} ResumeTogether(job: Job, tr: Trace, stop: int, i: nat, j: nat)
    requires Complete(job, tr) && 0 <= stop < |tr.steps| && i < |tr.progress| && j < |tr.progress|
    requires RunningAfter(PlanOf(tr), tr.steps, stop, i) && RunningAfter(PlanOf(tr), tr.steps, stop, j)
    ensures Cut(PlanOf(tr)[i], stop)[0].start <= Cut(PlanOf(tr)[j], stop)[0].start
  {
    var p := PlanOf(tr);
    PairsFacts(tr.progress[i], |tr.steps|, stop);
    PairsFacts(tr.progress[j], |tr.steps|, stop);
    CutFirst(p[i], stop, 0, |tr.steps|);
    CutFirst(p[j], stop, 0, |tr.steps|);
    var s, u := Cut(p[i], stop)[0].start + stop + 1, Cut(p[j], stop)[0].start + stop + 1;
    assert Attends(tr.progress[i], s) && Attends(tr.progress[j], u);
    assert ResumesAt(tr.progress[i], tr.steps, s);
    assert forall t :: stop < t < s ==> !Covers(p[i], t);
  }

  lemma {:induction false} OneFirstIter(job: Job, tr: Trace, stop: int)
    requires Complete(job, tr) && 0 <= stop < |tr.steps|
    ensures PlanFor(PlanOf(tr), tr.steps, stop)
    ensures |FirstIters(PlanOf(tr), tr.steps, stop)| <= 1
  {
    var p := PlanOf(tr);
    forall i: nat | i < |p| ensures Ordered(p[i], 0, |tr.steps|) {
      PairsFacts(tr.progress[i], |tr.steps|, stop);
    }
    var fs := FirstIters(p, tr.steps, stop);
    FirstItersFacts(p, tr.steps, stop);
    if |fs| >= 2 {
      FirstIterAt(p, tr.steps, stop, fs[0]);
      FirstIterAt(p, tr.steps, stop, fs[1]);
      var i: nat :| i < |p| && RunningAfter(p, tr.steps, stop, i) && Cut(p[i], stop)[0].start == fs[0];
      var j: nat :| j < |p| && RunningAfter(p, tr.steps, stop, j) && Cut(p[j], stop)[0].start == fs[1];
      ResumeTogether(job, tr, stop, j, i);
    }
  }

  /** Restarting a simulated schedule anywhere is exact. */
  lemma {:induction false} SimulatedRestartExact(job: Job, tr: Trace, stop: int)
    requires Complete(job, tr) && AllServable(job) && 0 <= stop && stop + 1 < |tr.steps|
    ensures Restartable(job.inp, PlanOf(tr), tr.steps, stop, job.lim.maxTokens)
    ensures ExactFit(RebuiltPlan(job.inp, PlanOf(tr), tr.steps, stop, job.lim.maxTokens),
                     RebuiltSteps(job.inp, PlanOf(tr), tr.steps, stop, job.lim.maxTokens))
  {
    var p := PlanOf(tr);
    OneFirstIter(job, tr, stop);
    forall i: nat | i < |job.inp| ensures job.inp[i] + Count(p[i]) - 1 <= job.lim.maxTokens {
      PairsFacts(tr.progress[i], |tr.steps|, stop);
      assert Servable(job, i);
    }
    forall t | 0 <= t < |tr.steps| ensures Attended(p, t) {
      assert LogExactAt(job, tr, t);
      var i: nat :| i < |tr.progress| && Attends(tr.progress[i], t);
      PairsFacts(tr.progress[i], |tr.steps|, stop);
      assert Covers(p[i], t);
    }
    RestartExact(job.inp, p, tr.steps, stop, job.lim.maxTokens);
  }
}
