/** Restarting a simulated schedule after a given iteration. */
module Restart {
  import opened Lists
  import opened Requests
  import opened Ranges
  import opened DecodeJump
  import opened Packing
  import opened Traces
  import opened TraceInvariant
  import opened Rounds
  import opened Simulation
  import opened Clock
  import opened RestartPlan
  import opened RestartScan
  import opened RestartKept
  import opened RestartClock
  import opened RestartArrays

  // ----- what is running at the stop

  /** The plan covers iterations of the schedule only. */
  ghost predicate PlanFor(plan: seq<seq<Rng>>, steps: seq<bool>, stop: int) {
    PlanOrdered(plan, |steps|) && 0 <= stop < |steps|
  }

  /** Request i has iterations left and the first of them is not a prefill: it was running. */
  predicate RunningAfter(plan: seq<seq<Rng>>, steps: seq<bool>, stop: int, i: nat)
    requires i < |plan|
  {
    var c := Cut(plan[i], stop);
    c != [] && 0 <= c[0].start + stop + 1 < |steps| && !steps[c[0].start + stop + 1]
  }

  function RunningIds(plan: seq<seq<Rng>>, steps: seq<bool>, stop: int, n: nat): (ids: seq<nat>)
    requires n <= |plan|
    ensures forall k :: 0 <= k < |ids| ==> ids[k] < n && RunningAfter(plan, steps, stop, ids[k])
    ensures forall i: nat :: i < n && RunningAfter(plan, steps, stop, i) ==> i in ids
    ensures forall j, k :: 0 <= j < k < |ids| ==> ids[j] < ids[k]
  {
    if n == 0 then []
    else
      var front := RunningIds(plan, steps, stop, n - 1);
      if RunningAfter(plan, steps, stop, n - 1) then front + [n - 1] else front
  }

  /** The recovery prompts: each running request at the length it has reached. */
  function Recovery(inp: seq<int>, plan: seq<seq<Rng>>, ids: seq<nat>, stop: int): (ps: seq<Prompt>)
    requires |inp| == |plan| && forall k :: 0 <= k < |ids| ==> ids[k] < |plan|
    ensures |ps| == |ids|
    ensures forall k :: 0 <= k < |ps| ==> ps[k] == Prompt(ids[k], inp[ids[k]] + DoneBy(plan[ids[k]], stop))
  {
    seq(|ids|, k requires 0 <= k < |ids| => Prompt(ids[k], inp[ids[k]] + DoneBy(plan[ids[k]], stop)))
  }

  /** The first iterations of the running requests after the cut. */
  function FirstStarts(plan: seq<seq<Rng>>, ids: seq<nat>, stop: int): (fs: seq<int>)
    requires forall k :: 0 <= k < |ids| ==> ids[k] < |plan| && Cut(plan[ids[k]], stop) != []
    ensures |fs| == |ids| && forall k :: 0 <= k < |fs| ==> fs[k] == Cut(plan[ids[k]], stop)[0].start
  {
    seq(|ids|, k requires 0 <= k < |ids| => Cut(plan[ids[k]], stop)[0].start)
  }

  function Values(bins: seq<Bin>): (vs: seq<int>)
    ensures |vs| == |bins| && forall k :: 0 <= k < |vs| ==> vs[k] == bins[k].value
  {
    seq(|bins|, k requires 0 <= k < |bins| => bins[k].value)
  }

  /** The distinct first iterations, in increasing order. */
  function FirstIters(plan: seq<seq<Rng>>, steps: seq<bool>, stop: int): seq<int> {
    Values(Unique(FirstStarts(plan, RunningIds(plan, steps, stop, |plan|), stop)))
  }

  /** The plan after the cut, without the iterations the recovery prefills replace. */
  function Trimmed(plan: seq<seq<Rng>>, steps: seq<bool>, stop: int): (t: seq<seq<Rng>>)
    ensures |t| == |plan|
  {
    seq(|plan|, i requires 0 <= i < |plan| =>
      if RunningAfter(plan, steps, stop, i) then DropFirst(Cut(plan[i], stop)) else Cut(plan[i], stop))
  }

  /** The trimmed plan without the iterations nobody attends any more. */
  function LeftOver(plan: seq<seq<Rng>>, steps: seq<bool>, stop: int): (l: seq<seq<Rng>>)
    ensures |l| == |plan|
  {
    DeleteIdle(Trimmed(plan, steps, stop), FirstIters(plan, steps, stop))
  }

  /** The final ranges of request i: moved behind the recovery prefills, and joined to its own. */
  function Rejoined(rs: seq<Rng>, slot: seq<int>, skip: nat): seq<Rng> {
    if |slot| > 0 then WithPrefill(Plus(rs, skip), slot[0]) else Plus(rs, skip)
  }

  /** The recovery prefills, packed as usual. */
  function RecoveryBatches(
      inp: seq<int>, plan: seq<seq<Rng>>, steps: seq<bool>, stop: int, budget: int): seq<seq<Prompt>>
    requires |inp| == |plan|
  {
    var p := Pack(Recovery(inp, plan, RunningIds(plan, steps, stop, |plan|), stop), budget);
    if p.Batches? then p.batches else []
  }

  function RecoveryTrace(n: nat, batches: seq<seq<Prompt>>): Trace
    requires BatchesFor(batches, n)
  {
    PrefillAll(EmptyTrace(n), batches)
  }

  // ----- facts about the parts

  lemma {:induction false} UniqueMembers(vs: seq<int>, x: int)
    ensures x in Values(Unique(vs)) <==> x in vs
  {
    if vs != [] {
      var front, v := vs[..|vs| - 1], vs[|vs| - 1];
      UniqueMembers(front, x);
      InsertMembers(Unique(front), v, x);
      assert vs == front + [v];
    }
  }

  lemma {:induction false} InsertMembers(bins: seq<Bin>, v: int, x: int)
    ensures x in Values(InsertValue(bins, v)) <==> x in Values(bins) || x == v
  {
    if bins == [] || v < bins[0].value {
      assert Values([Bin(v, 1)] + bins) == [v] + Values(bins);
    } else if v == bins[0].value {
      assert Values([Bin(v, bins[0].count + 1)] + bins[1..]) == Values(bins);
      assert Values(bins)[0] == v;
    } else {
      InsertMembers(bins[1..], v, x);
      assert Values(bins) == [bins[0].value] + Values(bins[1..]);
      assert Values([bins[0]] + InsertValue(bins[1..], v)) == [bins[0].value] + Values(InsertValue(bins[1..], v));
    }
  }

  /** f is the first iteration after the cut of some running request. */
  predicate IsFirst(plan: seq<seq<Rng>>, steps: seq<bool>, stop: int, f: int) {
    exists i: nat | i < |plan| :: RunningAfter(plan, steps, stop, i) && Cut(plan[i], stop)[0].start == f
  }

  lemma {:induction false} FirstInside(plan: seq<seq<Rng>>, steps: seq<bool>, stop: int, i: nat)
    requires PlanFor(plan, steps, stop) && i < |plan| && RunningAfter(plan, steps, stop, i)
    ensures 0 <= Cut(plan[i], stop)[0].start < |steps| - (stop + 1)
    ensures IsFirst(plan, steps, stop, Cut(plan[i], stop)[0].start)
  {
    CutOrdered(plan[i], stop, 0, |steps|);
  }

  lemma {:induction false} FirstIterAt(plan: seq<seq<Rng>>, steps: seq<bool>, stop: int, f: int)
    requires PlanFor(plan, steps, stop)
    ensures f in FirstIters(plan, steps, stop) <==> IsFirst(plan, steps, stop, f)
    ensures f in FirstIters(plan, steps, stop) ==> 0 <= f < |steps| - (stop + 1)
  {
    var ids := RunningIds(plan, steps, stop, |plan|);
    var starts := FirstStarts(plan, ids, stop);
    UniqueMembers(starts, f);
    if f in starts {
      var c :| 0 <= c < |starts| && starts[c] == f;
      FirstInside(plan, steps, stop, ids[c]);
    }
    if IsFirst(plan, steps, stop, f) {
      var i: nat :| i < |plan| && RunningAfter(plan, steps, stop, i) && Cut(plan[i], stop)[0].start == f;
      var c :| 0 <= c < |ids| && ids[c] == i;
      assert starts[c] == f;
    }
  }

  /** The first iterations are increasing, each inside the remaining schedule. */
  lemma {:induction false} FirstItersFacts(plan: seq<seq<Rng>>, steps: seq<bool>, stop: int)
    requires PlanFor(plan, steps, stop)
    ensures var fs := FirstIters(plan, steps, stop);
            && (forall k :: 0 <= k < |fs| ==> 0 <= fs[k] < |steps| - (stop + 1))
            && (forall j, k :: 0 <= j < k < |fs| ==> fs[j] < fs[k])
  {
    var fs := FirstIters(plan, steps, stop);
    UniqueCounts(FirstStarts(plan, RunningIds(plan, steps, stop, |plan|), stop), 0);
    forall k | 0 <= k < |fs| ensures 0 <= fs[k] < |steps| - (stop + 1) {
      FirstIterAt(plan, steps, stop, fs[k]);
    }
  }

  lemma {:induction false} TrimmedFacts(plan: seq<seq<Rng>>, steps: seq<bool>, stop: int)
    requires PlanFor(plan, steps, stop)
    ensures PlanOrdered(Trimmed(plan, steps, stop), |steps| - (stop + 1))
    ensures forall i: nat :: i < |plan| ==>
              DoneBy(plan[i], stop) + Count(Trimmed(plan, steps, stop)[i])
              + (if RunningAfter(plan, steps, stop, i) then 1 else 0) == Count(plan[i])
  {
    forall i: nat | i < |plan|
      ensures Ordered(Trimmed(plan, steps, stop)[i], 0, |steps| - (stop + 1))
      ensures DoneBy(plan[i], stop) + Count(Trimmed(plan, steps, stop)[i])
              + (if RunningAfter(plan, steps, stop, i) then 1 else 0) == Count(plan[i])
    {
      CutCounts(plan[i], stop);
      CutOrdered(plan[i], stop, 0, |steps|);
      if RunningAfter(plan, steps, stop, i) {
        var c := Cut(plan[i], stop);
        DropFirstFacts(c, 0, |steps| - (stop + 1));
        OrderedWeaken(DropFirst(c), c[0].start + 1, 0, |steps| - (stop + 1));
      }
    }
  }

  lemma {:induction false} LeftOverFacts(plan: seq<seq<Rng>>, steps: seq<bool>, stop: int, i: nat)
    requires PlanFor(plan, steps, stop) && i < |plan|
    ensures Ordered(LeftOver(plan, steps, stop)[i], 0, |steps| - (stop + 1))
    ensures DoneBy(plan[i], stop) + Count(LeftOver(plan, steps, stop)[i])
            + (if RunningAfter(plan, steps, stop, i) then 1 else 0) == Count(plan[i])
  {
    TrimmedFacts(plan, steps, stop);
    FirstItersFacts(plan, steps, stop);
    DeleteIdleKeeps(Trimmed(plan, steps, stop), FirstIters(plan, steps, stop), |steps| - (stop + 1));
  }

  /** The recovery seen as a small job of its own: each request at the length it has reached. */
  function RecoveryJob(inp: seq<int>, plan: seq<seq<Rng>>, stop: int): Job
    requires |inp| == |plan|
  {
    Job(seq(|inp|, i requires 0 <= i < |inp| => inp[i] + DoneBy(plan[i], stop)), seq(|inp|, _ => 1), Limits(1, 1, 1, 1))
  }

  ghost predicate RecoveryFor(inp: seq<int>, plan: seq<seq<Rng>>, ids: seq<nat>, stop: int, batches: seq<seq<Prompt>>) {
    && |inp| == |plan| && (forall k :: 0 <= k < |ids| ==> ids[k] < |plan|)
    && (forall j, k :: 0 <= j < k < |ids| ==> ids[j] < ids[k])
    && (forall i :: 0 <= i < |inp| ==> inp[i] >= 1 && DoneBy(plan[i], stop) >= 0)
    && Flatten(batches) == Recovery(inp, plan, ids, stop) && forall b :: 0 <= b < |batches| ==> batches[b] != []
  }

  lemma {:induction false} RecoveryTraceFacts(
      inp: seq<int>, plan: seq<seq<Rng>>, ids: seq<nat>, stop: int, batches: seq<seq<Prompt>>)
    requires RecoveryFor(inp, plan, ids, stop, batches)
    ensures BatchesFor(batches, |plan|)
    ensures var tr, tr' := EmptyTrace(|plan|), RecoveryTrace(|plan|, batches);
            && TraceInv(RecoveryJob(inp, plan, stop), tr') && |tr'.steps| == |batches|
            && forall i: nat :: i < |plan| ==> Prefilled(tr, tr', Recovery(inp, plan, ids, stop), i)
    ensures Ids(Recovery(inp, plan, ids, stop)) == ids
  {
    var job := RecoveryJob(inp, plan, stop);
    StartTrace(job);
    assert Ids(Recovery(inp, plan, ids, stop)) == ids;
    assert PromptsReady(job, EmptyTrace(|plan|), Recovery(inp, plan, ids, stop));
    PrefillAllKeeps(job, EmptyTrace(|plan|), batches);
  }

  /** The recovery prefills give each running request one iteration of its own, in front. */
  lemma {:induction false} RecoveryFacts(
      inp: seq<int>, plan: seq<seq<Rng>>, ids: seq<nat>, stop: int, batches: seq<seq<Prompt>>)
    requires RecoveryFor(inp, plan, ids, stop, batches)
    ensures BatchesFor(batches, |plan|)
    ensures var slots := RecoveryTrace(|plan|, batches).progress;
            && |slots| == |plan|
            && (forall i: nat :: i < |plan| ==>
                 if i in ids then |slots[i]| == 2 && 0 <= slots[i][0] == slots[i][1] < |batches| else slots[i] == [])
  {
    RecoveryTraceFacts(inp, plan, ids, stop, batches);
    var tr, tr' := EmptyTrace(|plan|), RecoveryTrace(|plan|, batches);
    forall i: nat | i < |plan|
      ensures if i in ids then |tr'.progress[i]| == 2 && 0 <= tr'.progress[i][0] == tr'.progress[i][1] < |batches|
              else tr'.progress[i] == []
    {
      assert Prefilled(tr, tr', Recovery(inp, plan, ids, stop), i);
      SingleIteration(tr'.progress[i], |batches|);
    }
  }

  lemma {:induction false} SingleIteration(r: seq<int>, bound: int)
    requires Canonical(r, bound)
    ensures Total(r) == 1 ==> |r| == 2 && 0 <= r[0] == r[1] < bound
    ensures Total(r) == 0 ==> r == []
  {
    CanonicalFacts(r, bound);
    if r != [] {
      CanonicalFacts(r[..|r| - 2], r[|r| - 2] - 1);
    }
  }

  /** Request i after the restart: its work adds up, and its ranges are in order. */
  lemma {:induction false} RejoinedFacts(rs: seq<Rng>, slot: seq<int>, skip: nat, hi: int)
    requires Ordered(rs, 0, hi) && hi >= 0 && (slot == [] || (|slot| == 2 && 0 <= slot[0] < skip))
    ensures Ordered(Rejoined(rs, slot, skip), 0, hi + skip)
    ensures Count(Rejoined(rs, slot, skip)) == Count(rs) + (if slot == [] then 0 else 1)
  {
    PlusFacts(rs, skip, 0, hi);
    if slot != [] {
      WithPrefillFacts(Plus(rs, skip), slot[0], skip, hi + skip);
    } else {
      OrderedWeaken(Plus(rs, skip), skip, 0, hi + skip);
    }
  }

  // ----- the restart

  /** What the restart needs: a legal plan, and prompts that fit a prefill batch. */
  ghost predicate Restartable(inp: seq<int>, plan: seq<seq<Rng>>, steps: seq<bool>, stop: int, budget: int) {
    && |inp| == |plan| && PlanFor(plan, steps, stop)
    && forall i :: 0 <= i < |inp| ==> inp[i] >= 1 && inp[i] + Count(plan[i]) - 1 <= budget
  }

  lemma {:induction false} RecoveryPacks(inp: seq<int>, plan: seq<seq<Rng>>, steps: seq<bool>, stop: int, budget: int)
    requires Restartable(inp, plan, steps, stop, budget)
    ensures var ids, bs := RunningIds(plan, steps, stop, |plan|), RecoveryBatches(inp, plan, steps, stop, budget);
            && Pack(Recovery(inp, plan, ids, stop), budget) == Batches(bs)
            && Flatten(bs) == Recovery(inp, plan, ids, stop) && AllFit(bs, budget) && BatchesFor(bs, |plan|)
            && var slots := RecoveryTrace(|plan|, bs).progress;
               && |slots| == |plan|
               && (forall i: nat :: i < |plan| ==>
                    if RunningAfter(plan, steps, stop, i) then |slots[i]| == 2 && 0 <= slots[i][0] == slots[i][1] < |bs|
                    else slots[i] == [])
  {
    var ids := RunningIds(plan, steps, stop, |plan|);
    var ps := Recovery(inp, plan, ids, stop);
    forall i | 0 <= i < |inp| ensures 0 <= DoneBy(plan[i], stop) <= Count(plan[i]) {
      CutCounts(plan[i], stop);
    }
    forall k | 0 <= k < |ps| ensures 0 <= ps[k].len <= budget {
      CutCounts(plan[ids[k]], stop);
    }
    PackSound(ps, budget);
    var bs := RecoveryBatches(inp, plan, steps, stop, budget);
    assert forall b :: 0 <= b < |bs| ==> Fits(bs[b], budget);
    RecoveryFacts(inp, plan, ids, stop, bs);
  }

  /** The rebuilt ranges of all requests. */
  ghost function RebuiltPlan(
      inp: seq<int>, plan: seq<seq<Rng>>, steps: seq<bool>, stop: int, budget: int): (p: seq<seq<Rng>>)
    requires Restartable(inp, plan, steps, stop, budget)
    ensures |p| == |plan|
  {
    RecoveryPacks(inp, plan, steps, stop, budget);
    var bs := RecoveryBatches(inp, plan, steps, stop, budget);
    var slots := RecoveryTrace(|plan|, bs).progress;
    seq(|plan|, i requires 0 <= i < |plan| => Rejoined(LeftOver(plan, steps, stop)[i], slots[i], |bs|))
  }

  /** An array over iterations after the restart: `front` for the recovery prefills, then the rest
      of the old entries without those the loop deletes. */
  ghost function RebuiltEntries<T>(
      front: seq<T>, rest: seq<T>, plan: seq<seq<Rng>>, steps: seq<bool>, stop: int): seq<T>
    requires PlanFor(plan, steps, stop)
  {
    FirstItersFacts(plan, steps, stop);
    DeleteEntries(front + rest, Trimmed(plan, steps, stop), FirstIters(plan, steps, stop), |front|)
  }

  lemma {:induction false} TrimmedOrdered(plan: seq<seq<Rng>>, steps: seq<bool>, stop: int, hi: int)
    requires PlanFor(plan, steps, stop) && hi == |steps| - (stop + 1)
    ensures hi >= 0 && PlanOrdered(Trimmed(plan, steps, stop), hi)
  {
    TrimmedFacts(plan, steps, stop);
  }

  lemma {:induction false} FirstItersRise(plan: seq<seq<Rng>>, steps: seq<bool>, stop: int, hi: int)
    requires PlanFor(plan, steps, stop) && hi == |steps| - (stop + 1)
    ensures Rising(FirstIters(plan, steps, stop), hi) && |FirstIters(plan, steps, stop)| <= hi
  {
    FirstItersFacts(plan, steps, stop);
    RisingFits(FirstIters(plan, steps, stop), hi);
  }

  /** The positions behind the stop that keep their entries. */
  ghost function KeptPositions(plan: seq<seq<Rng>>, steps: seq<bool>, stop: int): (ks: seq<nat>)
    requires PlanFor(plan, steps, stop)
    ensures InRange(ks, |steps| - (stop + 1))
  {
    var t0, fs, hi := Trimmed(plan, steps, stop), FirstIters(plan, steps, stop), |steps| - (stop + 1);
    FirstItersRise(plan, steps, stop, hi);
    SurvivorsReady(t0, fs, hi, hi);
    Survivors(t0, Reads(t0, fs), hi)
  }

  lemma {:induction false} KeptAre(
      plan: seq<seq<Rng>>, steps: seq<bool>, stop: int, t0: seq<seq<Rng>>, rs: seq<int>, hi: int)
    requires PlanFor(plan, steps, stop) && hi == |steps| - (stop + 1)
    requires t0 == Trimmed(plan, steps, stop) && rs == Reads(t0, FirstIters(plan, steps, stop))
    ensures hi >= 0 && EnoughKept(t0, rs, hi) && KeptPositions(plan, steps, stop) == Survivors(t0, rs, hi)
  {
    FirstItersRise(plan, steps, stop, hi);
    SurvivorsReady(t0, FirstIters(plan, steps, stop), hi, hi);
  }

  /** Which entries the loop leaves in an array over iterations. */
  lemma {:induction false} RebuiltKeeps<T>(
      front: seq<T>, rest: seq<T>, plan: seq<seq<Rng>>, steps: seq<bool>, stop: int)
    requires PlanFor(plan, steps, stop) && |rest| == |steps| - (stop + 1)
    ensures RebuiltEntries(front, rest, plan, steps, stop) == front + Gather(rest, KeptPositions(plan, steps, stop))
  {
    var t0, fs := Trimmed(plan, steps, stop), FirstIters(plan, steps, stop);
    TrimmedOrdered(plan, steps, stop, |rest|);
    FirstItersRise(plan, steps, stop, |rest|);
    var rs, ks := EntriesSurvive(front, rest, t0, fs, |rest|, |rest|);
    KeptAre(plan, steps, stop, t0, rs, |rest|);
  }

  ghost function RebuiltSteps(inp: seq<int>, plan: seq<seq<Rng>>, steps: seq<bool>, stop: int, budget: int): seq<bool>
    requires Restartable(inp, plan, steps, stop, budget)
  {
    RebuiltEntries(seq(|RecoveryBatches(inp, plan, steps, stop, budget)|, _ => true), steps[stop + 1..], plan, steps,
                   stop)
  }

  lemma {:induction false} RebuiltFrom(
      inp: seq<int>, plan: seq<seq<Rng>>, steps: seq<bool>, stop: int, budget: int, i: nat, n: nat)
    returns (slot: seq<int>)
    requires Restartable(inp, plan, steps, stop, budget) && i < |plan|
    requires n == |RecoveryBatches(inp, plan, steps, stop, budget)|
    ensures RebuiltPlan(inp, plan, steps, stop, budget)[i] == Rejoined(LeftOver(plan, steps, stop)[i], slot, n)
    ensures if RunningAfter(plan, steps, stop, i) then |slot| == 2 && 0 <= slot[0] < n else slot == []
  {
    RecoveryPacks(inp, plan, steps, stop, budget);
    slot := RecoveryTrace(|plan|, RecoveryBatches(inp, plan, steps, stop, budget)).progress[i];
  }

  /** Restarting conserves work: for each request the iterations done by the stop and those of the
      rebuilt ranges add up to its total, and the rebuilt ranges are ordered and disjoint. */
  lemma {:induction false} RestartConserves(
      inp: seq<int>, plan: seq<seq<Rng>>, steps: seq<bool>, stop: int, budget: int)
    requires Restartable(inp, plan, steps, stop, budget)
    ensures var plan' := RebuiltPlan(inp, plan, steps, stop, budget);
            && PlanOrdered(plan', |RecoveryBatches(inp, plan, steps, stop, budget)| + |steps| - (stop + 1))
            && forall i :: 0 <= i < |plan| ==> DoneBy(plan[i], stop) + Count(plan'[i]) == Count(plan[i])
  {
    forall i: nat | i < |plan|
      ensures var rs := RebuiltPlan(inp, plan, steps, stop, budget)[i];
              && Ordered(rs, 0, |RecoveryBatches(inp, plan, steps, stop, budget)| + |steps| - (stop + 1))
              && DoneBy(plan[i], stop) + Count(rs) == Count(plan[i])
    {
      RequestConserves(inp, plan, steps, stop, budget, i);
    }
  }

  lemma {:induction false} RequestConserves(
      inp: seq<int>, plan: seq<seq<Rng>>, steps: seq<bool>, stop: int, budget: int, i: nat)
    requires Restartable(inp, plan, steps, stop, budget) && i < |plan|
    ensures var rs := RebuiltPlan(inp, plan, steps, stop, budget)[i];
            && Ordered(rs, 0, |RecoveryBatches(inp, plan, steps, stop, budget)| + |steps| - (stop + 1))
            && DoneBy(plan[i], stop) + Count(rs) == Count(plan[i])
  {
    var n := |RecoveryBatches(inp, plan, steps, stop, budget)|;
    var slot := RebuiltFrom(inp, plan, steps, stop, budget, i, n);
    LeftOverFacts(plan, steps, stop, i);
    RejoinedFacts(LeftOver(plan, steps, stop)[i], slot, n, |steps| - (stop + 1));
  }

  // ----- the clock and the finish times

  /** What the recovery prefills cost. */
  ghost function RecoveryLatencies(
      inp: seq<int>, plan: seq<seq<Rng>>, steps: seq<bool>, stop: int, budget: int, costs: Costs): (l: seq<real>)
    requires Restartable(inp, plan, steps, stop, budget)
    ensures |l| == |RecoveryBatches(inp, plan, steps, stop, budget)|
  {
    RecoveryPacks(inp, plan, steps, stop, budget);
    var bs := RecoveryBatches(inp, plan, steps, stop, budget);
    RecoveryLogs(EmptyTrace(|plan|), bs);
    PrefillLatencies(RecoveryTrace(|plan|, bs).prefills, RecoveryTrace(|plan|, bs).valids, costs)
  }

  /** The running sum of the recovery latencies and of those after the stop, of which the readings
      at the given positions remain. */
  ghost predicate ClockWithout(lats: seq<real>, cum: seq<real>, stop: int, ks: seq<nat>, cum': seq<real>)
    requires 0 <= stop < |cum| && InRange(ks, |cum| - (stop + 1))
  {
    var all := CumFrom(0.0, lats + StepLengths(cum)[stop + 1..]);
    cum' == all[..|lats|] + Gather(all[|lats|..], ks)
  }

  ghost predicate ClockKept(
      lats: seq<real>, plan: seq<seq<Rng>>, steps: seq<bool>, cum: seq<real>, stop: int, cum': seq<real>)
    requires PlanFor(plan, steps, stop) && |cum| == |steps|
  {
    ClockWithout(lats, cum, stop, KeptPositions(plan, steps, stop), cum')
  }

  /** A request finishes in a recovery prefill, or at the end of the iteration that was its last
      before, counted from the stop and begun after the recovery. */
  ghost predicate FinishesAnew(
      lats: seq<real>, cum: seq<real>, stop: int, was: seq<Rng>, now: seq<Rng>, time: real)
  {
    && was != [] && now != [] && 0 <= stop <= was[|was| - 1].end < |cum| && now[|now| - 1].end >= 0
    && var e := now[|now| - 1].end;
       time == if e < |lats| then CumFrom(0.0, lats)[e]
               else LastOr(CumFrom(0.0, lats), 0.0) + (cum[was[|was| - 1].end] - cum[stop])
  }

  lemma {:induction false} CutLast(rs: seq<Rng>, stop: int)
    requires (forall j, k :: 0 <= j < k < |rs| ==> rs[j].end < rs[k].end) && rs != []
    ensures Cut(rs, stop) != [] <==> rs[|rs| - 1].end > stop
    ensures var c := Cut(rs, stop); c != [] ==> c[|c| - 1].end == rs[|rs| - 1].end - (stop + 1)
    decreases |rs|
  {
    if |rs| > 1 {
      CutLast(rs[1..], stop);
    } else {
      assert Cut(rs[1..], stop) == [];
    }
  }

  lemma {:induction false} TrimmedLast(plan: seq<seq<Rng>>, steps: seq<bool>, stop: int, i: nat)
    requires PlanFor(plan, steps, stop) && i < |plan|
    ensures var rs, t := plan[i], Trimmed(plan, steps, stop)[i];
            t != [] || RunningAfter(plan, steps, stop, i) ==> rs != [] && stop < rs[|rs| - 1].end < |steps|
    ensures var rs, t := plan[i], Trimmed(plan, steps, stop)[i];
            t != [] ==> t[|t| - 1].end == rs[|rs| - 1].end - (stop + 1)
  {
    if plan[i] != [] {
      CutLast(plan[i], stop);
    }
  }

  lemma {:induction false} WithPrefillLast(rs: seq<Rng>, slot: int)
    ensures var q := WithPrefill(rs, slot); q != [] && q[|q| - 1].end == if rs == [] then slot else rs[|rs| - 1].end
  {
  }

  lemma {:induction false} RejoinedLast(rs: seq<Rng>, slot: seq<int>, skip: nat)
    requires slot == [] || |slot| == 2
    ensures var q := Rejoined(rs, slot, skip);
            if rs != [] then q != [] && q[|q| - 1].end == rs[|rs| - 1].end + skip
            else if slot != [] then q != [] && q[|q| - 1].end == slot[0]
            else q == []
  {
    if slot != [] {
      WithPrefillLast(Plus(rs, skip), slot[0]);
    }
  }

  /** The new last position of a request keeps the entry of its old one. */
  lemma {:induction false} EndKept(
      t0: seq<seq<Rng>>, fs: seq<int>, rs: seq<int>, ks: seq<nat>, hi: nat, i: nat, left: seq<Rng>)
    requires PlanOrdered(t0, hi) && Rising(fs, hi) && rs == Reads(t0, fs) && i < |t0|
    requires EnoughKept(t0, rs, hi) && ks == Survivors(t0, rs, hi)
    requires left == DeleteIdle(t0, fs)[i] && left != [] && left[|left| - 1].end < |ks|
    ensures var e := left[|left| - 1].end; t0[i] != [] && e >= 0 && ks[e] == t0[i][|t0[i]| - 1].end
  {
    DeletedSize(t0, fs, i);
    var k: nat := |t0[i]| - 1;
    RangesMove(t0, fs, hi, hi, i, k);
    RangeAttended(t0, hi, i, k);
    LastBelow(t0, hi, i);
    EntryAtRank(t0, rs, hi, t0[i][k].end);
  }

  lemma {:induction false} LastBelow(plan: seq<seq<Rng>>, hi: int, i: nat)
    requires PlanOrdered(plan, hi) && i < |plan| && plan[i] != []
    ensures plan[i][|plan[i]| - 1].end < hi
  {
    assert Ordered(plan[i], 0, hi);
  }

  lemma {:induction false} DeletedSize(plan: seq<seq<Rng>>, fs: seq<int>, i: nat)
    requires i < |plan|
    ensures |DeleteIdle(plan, fs)[i]| == |plan[i]|
  {
    if fs != [] {
      DeletedSize(plan, fs[..|fs| - 1], i);
    }
  }

  /** If the new last position is inside the array, its entry is the one of the old last position. */
  ghost predicate LastKept(was: seq<Rng>, left: seq<Rng>, ks: seq<nat>, stop: int, n: int) {
    left != [] && left[|left| - 1].end < |ks| ==>
      var e := left[|left| - 1].end;
      && e >= 0 && was != [] && stop < was[|was| - 1].end < n && ks[e] == was[|was| - 1].end - (stop + 1)
  }

  lemma {:induction false} LeftKept(plan: seq<seq<Rng>>, steps: seq<bool>, stop: int, i: nat)
    requires PlanFor(plan, steps, stop) && i < |plan|
    ensures LastKept(plan[i], LeftOver(plan, steps, stop)[i], KeptPositions(plan, steps, stop), stop, |steps|)
  {
    var left, ks := LeftOver(plan, steps, stop)[i], KeptPositions(plan, steps, stop);
    if left != [] && left[|left| - 1].end < |ks| {
      var t0, fs, hi := Trimmed(plan, steps, stop), FirstIters(plan, steps, stop), |steps| - (stop + 1);
      KeptAre(plan, steps, stop, t0, Reads(t0, fs), hi);
      TrimmedOrdered(plan, steps, stop, hi);
      FirstItersRise(plan, steps, stop, hi);
      EndKept(t0, fs, Reads(t0, fs), ks, hi, i, left);
      TrimmedLast(plan, steps, stop, i);
    }
  }

  lemma {:induction false} FinishMoves(
      inp: seq<int>, plan: seq<seq<Rng>>, steps: seq<bool>, cum: seq<real>, stop: int, budget: int, lats: seq<real>,
      cum': seq<real>, i: nat, now: seq<Rng>, time: real)
    requires Restartable(inp, plan, steps, stop, budget) && |cum| == |steps| && i < |plan|
    requires |lats| == |RecoveryBatches(inp, plan, steps, stop, budget)|
             && ClockKept(lats, plan, steps, cum, stop, cum')
    requires now == RebuiltPlan(inp, plan, steps, stop, budget)[i] && FinishesAt(cum', now, time)
    ensures FinishesAnew(lats, cum, stop, plan[i], now, time)
  {
    var slot := RebuiltFrom(inp, plan, steps, stop, budget, i, |lats|);
    TrimmedLast(plan, steps, stop, i);
    LeftKept(plan, steps, stop, i);
    FinishOf(lats, cum, stop, KeptPositions(plan, steps, stop), cum', plan[i], LeftOver(plan, steps, stop)[i], slot,
             now,
             time);
  }

  lemma {:induction false} FinishOf(
      lats: seq<real>, cum: seq<real>, stop: int, ks: seq<nat>, cum': seq<real>, was: seq<Rng>, left: seq<Rng>,
      slot: seq<int>, now: seq<Rng>, time: real)
    requires 0 <= stop < |cum| && InRange(ks, |cum| - (stop + 1)) && ClockWithout(lats, cum, stop, ks, cum')
    requires now == Rejoined(left, slot, |lats|) && FinishesAt(cum', now, time)
    requires LastKept(was, left, ks, stop, |cum|)
    requires slot == [] || (|slot| == 2 && 0 <= slot[0] < |lats| && was != [] && stop < was[|was| - 1].end < |cum|)
    ensures FinishesAnew(lats, cum, stop, was, now, time)
  {
    RejoinedLast(left, slot, |lats|);
    ClockReadings(lats, cum, stop, ks, cum', now[|now| - 1].end);
  }

  lemma {:induction false} ClockReadings(
      lats: seq<real>, cum: seq<real>, stop: int, ks: seq<nat>, cum': seq<real>, e: nat)
    requires 0 <= stop < |cum| && InRange(ks, |cum| - (stop + 1)) && e < |cum'|
    requires ClockWithout(lats, cum, stop, ks, cum')
    ensures |cum'| == |lats| + |ks|
    ensures cum'[e] == if e < |lats| then CumFrom(0.0, lats)[e]
                       else LastOr(CumFrom(0.0, lats), 0.0) + (cum[stop + 1 + ks[e - |lats|]] - cum[stop])
  {
    RestartedClockAdds(lats, cum, stop);
  }

  // ----- the method

  /** The loop over the first iterations: delete those nobody attends any more. */
  method DeleteLoop(plan: seq<seq<Rng>>, fs: seq<int>, skip: nat, steps: seq<bool>, cum: seq<real>)
    returns (plan': seq<seq<Rng>>, steps': seq<bool>, cum': seq<real>)
    requires forall k :: 0 <= k < |fs| ==> fs[k] >= 0
    ensures plan' == DeleteIdle(plan, fs)
    ensures steps' == DeleteEntries(steps, plan, fs, skip) && cum' == DeleteEntries(cum, plan, fs, skip)
  {
    plan', steps', cum' := plan, steps, cum;
    for k := 0 to |fs|
      invariant plan' == DeleteIdle(plan, fs[..k])
      invariant steps' == DeleteEntries(steps, plan, fs[..k], skip)
      invariant cum' == DeleteEntries(cum, plan, fs[..k], skip)
    {
      assert fs[..k + 1][..k] == fs[..k];
      if !Attended(plan', fs[k]) {
        plan' := DeleteIfIdle(plan', fs[k]);
        steps' := RemoveAt(steps', fs[k] + skip);
        cum' := RemoveAt(cum', fs[k] + skip);
      }
    }
    assert fs[..|fs|] == fs;
  }

  /** The first requests with their ranges moved and joined. */
  ghost predicate MergedFrom(done: seq<seq<Rng>>, plan: seq<seq<Rng>>, slots: seq<seq<int>>, skip: nat)
    requires |slots| == |plan|
  {
    |done| <= |plan| && forall j :: 0 <= j < |done| ==> done[j] == Rejoined(plan[j], slots[j], skip)
  }

  lemma {:induction false} MergedMore(
      done: seq<seq<Rng>>, plan: seq<seq<Rng>>, slots: seq<seq<int>>, skip: nat, rs: seq<Rng>)
    requires |slots| == |plan| && MergedFrom(done, plan, slots, skip) && |done| < |plan|
    requires rs == Rejoined(plan[|done|], slots[|done|], skip)
    ensures MergedFrom(done + [rs], plan, slots, skip)
  {
  }

  /** The loop over the requests: move the ranges behind the prefills and join them, in the flat form. */
  method MergeLoop(plan: seq<seq<Rng>>, slots: seq<seq<int>>, skip: nat)
    returns (plan': seq<seq<Rng>>, alive: seq<nat>, flat: Flat)
    requires |slots| == |plan|
    ensures |plan'| == |plan| && MergedFrom(plan', plan, slots, skip)
    ensures alive == Alive(plan') && flat == FlatOf(plan')
  {
    plan', alive, flat := [], [], Flat([0], [], []);
    for i := 0 to |plan|
      invariant |plan'| == i && MergedFrom(plan', plan, slots, skip)
      invariant alive == Alive(plan') && flat == FlatOf(plan')
    {
      var rs := Rejoined(plan[i], slots[i], skip);
      MergedMore(plan', plan, slots, skip, rs);
      AliveMore(plan', rs);
      FlatOneMore(plan', rs);
      plan', flat := plan' + [rs], FlatMore(flat, rs);
      if rs != [] {
        alive := alive + [i];
      }
    }
  }

  /** The schedule from iteration stop + 1 on, with recovery prefills in front. It fails, as the last
      assertions do, exactly when the largest end is not the last iteration of the rebuilt schedule;
      otherwise it returns the rebuilt ranges, flat as well, the flags, a clock of the same length that
      never goes back if the old one did not, the requests that still have iterations, and when they
      finish. */
  method RestartSchedule(
      inp: seq<int>, plan: seq<seq<Rng>>, steps: seq<bool>, cum: seq<real>, stop: int, budget: int, costs: Costs)
    returns (ok: bool, plan': seq<seq<Rng>>, flat: Flat, steps': seq<bool>, cum': seq<real>, alive: seq<nat>,
             finish: seq<real>)
    requires Restartable(inp, plan, steps, stop, budget) && |cum| == |steps|
    ensures ok <==> PlanEnd(RebuiltPlan(inp, plan, steps, stop, budget))
                    == |RebuiltSteps(inp, plan, steps, stop, budget)|
    ensures plan' == RebuiltPlan(inp, plan, steps, stop, budget) && flat == FlatOf(plan')
    ensures steps' == RebuiltSteps(inp, plan, steps, stop, budget)
    ensures steps' == seq(|RecoveryBatches(inp, plan, steps, stop, budget)|, _ => true)
                      + Gather(steps[stop + 1..], KeptPositions(plan, steps, stop))
    ensures |cum'| == |steps'|
    ensures ClockKept(RecoveryLatencies(inp, plan, steps, stop, budget, costs), plan, steps, cum, stop, cum')
    ensures NonNegativeCosts(costs) && NonDecreasing(cum) ==> NonDecreasing(cum')
    ensures alive == Alive(plan')
    ensures ok ==> |finish| == |alive| && forall k :: 0 <= k < |alive| ==> FinishesAt(cum', plan'[alive[k]], finish[k])
    ensures ok ==> forall k :: 0 <= k < |alive| ==>
              FinishesAnew(RecoveryLatencies(inp, plan, steps, stop, budget, costs), cum, stop, plan[alive[k]],
                           plan'[alive[k]], finish[k])
  {
    plan', flat, steps', cum', alive := RebuildSchedule(inp, plan, steps, cum, stop, budget, costs);
    RestartConserves(inp, plan, steps, stop, budget);
    ghost var hi := |RecoveryBatches(inp, plan, steps, stop, budget)| + |steps| - (stop + 1);
    EndsAtPlanEnd(plan', hi);
    HighestEnd(plan', hi);
    ok, finish := Highest(flat.ends) == |steps'|, [];
    if ok {
      finish := FinishTimes(cum', flat, plan');
      forall k | 0 <= k < |alive|
        ensures FinishesAnew(RecoveryLatencies(inp, plan, steps, stop, budget, costs), cum, stop, plan[alive[k]],
                             plan'[alive[k]], finish[k])
      {
        FinishMoves(inp, plan, steps, cum, stop, budget, RecoveryLatencies(inp, plan, steps, stop, budget, costs), cum',
                    alive[k], plan'[alive[k]], finish[k]);
      }
    }
  }

  lemma {:induction false} ClockRebuilt(
      plan: seq<seq<Rng>>, steps: seq<bool>, cum: seq<real>, stop: int, lats: seq<real>)
    requires PlanFor(plan, steps, stop) && |cum| == |steps|
    ensures forall k :: 0 <= k < |FirstIters(plan, steps, stop)| ==> FirstIters(plan, steps, stop)[k] >= 0
    ensures ClockKept(lats, plan, steps, cum, stop,
                      DeleteEntries(RestartedClock(CumFrom(0.0, lats), cum, stop), Trimmed(plan, steps, stop),
                                    FirstIters(plan, steps, stop), |lats|))
  {
    FirstItersFacts(plan, steps, stop);
    RestartedClockAdds(lats, cum, stop);
    var all := RestartedClock(CumFrom(0.0, lats), cum, stop);
    assert all == all[..|lats|] + all[|lats|..];
    RebuiltKeeps(all[..|lats|], all[|lats|..], plan, steps, stop);
  }

  method RebuildSchedule(
      inp: seq<int>, plan: seq<seq<Rng>>, steps: seq<bool>, cum: seq<real>, stop: int, budget: int, costs: Costs)
    returns (plan': seq<seq<Rng>>, flat: Flat, steps': seq<bool>, cum': seq<real>, alive: seq<nat>)
    requires Restartable(inp, plan, steps, stop, budget) && |cum| == |steps|
    ensures plan' == RebuiltPlan(inp, plan, steps, stop, budget) && flat == FlatOf(plan') && alive == Alive(plan')
    ensures steps' == RebuiltSteps(inp, plan, steps, stop, budget) && |cum'| == |steps'|
    ensures steps' == seq(|RecoveryBatches(inp, plan, steps, stop, budget)|, _ => true)
                      + Gather(steps[stop + 1..], KeptPositions(plan, steps, stop))
    ensures ClockKept(RecoveryLatencies(inp, plan, steps, stop, budget, costs), plan, steps, cum, stop, cum')
    ensures NonNegativeCosts(costs) && NonDecreasing(cum) ==> NonDecreasing(cum')
  {
    RecoveryPacks(inp, plan, steps, stop, budget);
    FirstItersFacts(plan, steps, stop);
    var bs := RecoveryBatches(inp, plan, steps, stop, budget);
    var rec := RecoveryTrace(|plan|, bs);
    RecoveryLogs(EmptyTrace(|plan|), bs);
    var lats := PrefillLatencies(rec.prefills, rec.valids, costs);
    var t, fs, front := Trimmed(plan, steps, stop), FirstIters(plan, steps, stop), seq(|bs|, _ => true);
    RestartedClockFacts(front, steps, lats, cum, stop, t, fs);
    RebuiltKeeps(front, steps[stop + 1..], plan, steps, stop);
    ClockRebuilt(plan, steps, cum, stop, lats);
    var left;
    left, steps', cum' := DeleteLoop(t, fs, |bs|, front + steps[stop + 1..],
                                     RestartedClock(CumFrom(0.0, lats), cum, stop));
    plan', alive, flat := MergeLoop(left, rec.progress, |bs|);
    assert plan' == RebuiltPlan(inp, plan, steps, stop, budget);
  }

  lemma {:induction false} RecoveryLogs(tr: Trace, batches: seq<seq<Prompt>>)
    requires BatchesFor(batches, |tr.progress|)
    ensures var tr' := PrefillAll(tr, batches);
            |tr'.prefills| == |tr.prefills| + |batches| && |tr'.valids| == |tr.valids| + |batches|
    decreases |batches|
  {
    if batches != [] {
      RecoveryLogs(Prefill(tr, batches[0]), batches[1..]);
    }
  }
}
