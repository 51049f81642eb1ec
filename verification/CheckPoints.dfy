/** When a simulation with arrivals looks for new requests, in plain terms: who is received at a check,
    when requests are awaited, where a decode stretch ends, and what the clock shows. */
module CheckPoints {
  import opened Requests
  import opened DecodeJump
  import opened Traces
  import opened Rounds
  import opened Simulation
  import opened SchedulerState
  import opened ArrivalCheck
  import opened Clock
  import opened ArrivalRounds
  import opened Watermark

  // ----- checks

  /** A check at the given time has received all that have arrived: the next one has not. */
  ghost predicate ReceivedAll(arrive: seq<real>, n: nat, e: nat, time: real) {
    && n <= e <= |arrive| && (forall i :: n <= i < e ==> arrive[i] <= time) && (e < |arrive| ==> arrive[e] > time)
  }

  /** The newly received requests wait in the order of their numbers, or the longest first and those of
      the same length in the order of their numbers. */
  ghost predicate InLine(sortInput: bool, wait: seq<Req>) {
    forall j, k :: 0 <= j < k < |wait| ==>
      if sortInput then wait[j].len > wait[k].len || (wait[j].len == wait[k].len && wait[j].id < wait[k].id)
      else wait[j].id < wait[k].id
  }

  /** The first thing in a round: an idle engine moves the clock to the next arrival, if that is later,
      and checks; another one checks when requests are awaited and the iteration is a multiple of the
      gap; otherwise nothing happens. */
  ghost predicate CheckLaw(u: Setup, x: Control, y: Control)
    requires u.gap >= 1
  {
    && y.st.run == x.st.run && y.st.tr == x.st.tr && y.cum == x.cum
    && if x.st.run == [] && x.st.wait == [] then
         && (x.received < |u.arrive| ==>
              y.time == if u.arrive[x.received] > x.time then u.arrive[x.received] else x.time)
         && ReceivedAll(u.arrive, x.received, y.received, y.time) && InLine(u.sortInput, y.st.wait)
       else if x.needQuery && |x.st.tr.steps| % u.gap == 0 then
         && y.time == x.time
         && ReceivedAll(u.arrive, x.received, y.received, y.time) && InLine(u.sortInput, y.st.wait)
       else
         y == x
  }

  lemma {:induction false} ArrangedInLine(sortInput: bool, news: seq<Req>)
    requires forall j, k :: 0 <= j < k < |news| ==> news[j].id < news[k].id
    ensures InLine(sortInput, Arranged(sortInput, news))
  {
    if sortInput {
      var lens := LensOf(news);
      var order, w := ByLength(lens), Arranged(true, news);
      ByLengthStable(lens);
      forall j, k | 0 <= j < k < |w|
        ensures w[j].len > w[k].len || (w[j].len == w[k].len && w[j].id < w[k].id)
      {
        assert Before(lens, order[j], order[k]);
      }
    }
  }

  lemma {:induction false} ChecksWhenDue(u: Setup, x: Control)
    requires ControlInv(u, x) && Pending(u, x)
    ensures x.received <= |u.arrive| && CheckLaw(u, x, AfterCheck(u, x))
  {
    CheckKeeps(u, x);
    if MustCheck(u, x) {
      var busy, n := x.st.run != [], x.received;
      CheckFacts(u.arrive, n, busy, x.time);
      ArrangedInLine(u.sortInput, NewReqs(u.job, n, CheckEnd(u.arrive, n, busy, x.time)));
    }
  }

  // ----- awaiting requests

  /** Requests are awaited when some are missing, none waits, the table has a free place, and one more
      token would leave one percent of the cache free. */
  ghost predicate AwaitLaw(u: Setup, z: Control)
    requires u.job.lim.blockSize >= 1
  {
    var lim := u.job.lim;
    z.needQuery <==>
      && z.received < |u.job.inp| && z.st.wait == [] && |z.st.run| < lim.maxSeqs
      && 100 * (lim.maxBlocks - Blocks(z.st.run, 0, lim.blockSize) - CeilDiv(1, lim.blockSize)) >= lim.maxBlocks
  }

  // ----- the decode stretch

  /** From iteration n on, with requests awaited or not, a stretch up to n': the next check point, a
      multiple of the gap from n (or n + 1) on, is never passed; and the stretch ends there or where
      decoding one token at a time would stop. */
  ghost predicate StretchLaw(
      lim: Limits, run: seq<Req>, gap: int, awaiting: bool, must: bool, n: nat, n': nat)
    requires lim.blockSize >= 1 && gap >= 1 && run != []
  {
    && n <= n'
    && (awaiting ==> forall m: nat :: m % gap == 0 && m >= n + (if must then 1 else 0) ==> n' <= m)
    && (Advance(run, n' - n) == StepUntilStop(run, lim)
        || (awaiting && n' % gap == 0 && n' >= n + (if must then 1 else 0)))
  }

  lemma {:induction false} NextMultiple(n: nat, must: bool, gap: int, m: nat)
    requires gap >= 1 && m % gap == 0 && m >= n + (if must then 1 else 0)
    ensures n + UpToCheck(n, must, gap) <= m
    ensures n + UpToCheck(n, must, gap) >= n + (if must then 1 else 0)
  {
    var s := n + (if must then 1 else 0);
    var q, r := (s + gap - 1) / gap, (s + gap - 1) % gap;
    assert q * gap + r == s + gap - 1;
    var p := m / gap;
    assert m == p * gap;
    if p < q {
      MulMono(p, q - 1, gap);
      MulNext(q - 1, gap);
    } else {
      MulMono(q, p, gap);
    }
  }

  lemma {:induction false} StretchOf(
      lim: Limits, run: seq<Req>, gap: int, awaiting: bool, must: bool, n: nat, k: nat, n': int)
    requires lim.blockSize >= 1 && gap >= 1 && run != [] && Advance(run, k) == StepUntilStop(run, lim)
    requires var g := UpToCheck(n, must, gap); n' == n + (if awaiting && g < k then g else k)
    ensures n' >= 0 && StretchLaw(lim, run, gap, awaiting, must, n, n')
  {
    UpToCheckFacts(n, must, gap);
    forall m: nat | m % gap == 0 && m >= n + (if must then 1 else 0) ensures n + UpToCheck(n, must, gap) <= m {
      NextMultiple(n, must, gap, m);
    }
  }

  lemma {:induction false} StretchLength(u: Setup, z: Control, p: SimState, awaiting: bool)
    requires u.job.lim.blockSize >= 1 && u.gap >= 1
    requires p == Preempting(u.job.lim, z.st) && p.run != [] && CanDecode(p)
             && awaiting == (z.needQuery && p.wait == [])
    requires Steps(u.job.lim, p) >= 0
    ensures var k, g := Steps(u.job.lim, p), UpToCheck(|z.st.tr.steps|, z.mustRecord, u.gap);
            |AfterDecode(u, z).st.tr.steps| == |z.st.tr.steps| + (if awaiting && g < k then g else k)
  {
    UpToCheckFacts(|z.st.tr.steps|, z.mustRecord, u.gap);
  }

  /** Somebody runs after preemption, and the steps of the jump are those of stepping. */
  ghost predicate ReadyToDecode(lim: Limits, p: SimState)
    requires lim.blockSize >= 1
  {
    && p.run != [] && CanDecode(p) && Steps(lim, p) >= 0
    && Advance(p.run, Steps(lim, p)) == StepUntilStop(p.run, lim)
  }

  lemma {:induction false} PreemptedReady(u: Setup, z: Control)
    requires ControlInv(u, z) && z.st.run != []
    ensures ReadyToDecode(u.job.lim, Preempting(u.job.lim, z.st))
  {
    PreemptingKeeps(u.job, z.st, z.received, false);
    var p := Preempting(u.job.lim, z.st);
    assert Blocks(p.run, 0, u.job.lim.blockSize) <= u.job.lim.maxBlocks;
    JumpIsStepping(p.run, u.job.lim);
  }

  /** A decode stretch ends at the next check point or where stepping would stop. */
  lemma {:induction false} StretchEnds(u: Setup, z: Control, p: SimState, awaiting: bool)
    requires u.job.lim.blockSize >= 1 && u.gap >= 1 && p == Preempting(u.job.lim, z.st)
    requires ReadyToDecode(u.job.lim, p) && awaiting == (z.needQuery && p.wait == [])
    ensures StretchLaw(u.job.lim, p.run, u.gap, awaiting, z.mustRecord, |z.st.tr.steps|,
                       |AfterDecode(u, z).st.tr.steps|)
  {
    StretchLength(u, z, p, awaiting);
    StretchOf(u.job.lim, p.run, u.gap, awaiting, z.mustRecord, |z.st.tr.steps|, Steps(u.job.lim, p),
              |AfterDecode(u, z).st.tr.steps|);
  }

  // ----- the clock

  /** Iteration t starts when the one before it ends, iteration n at `time`, and takes its latency. */
  ghost predicate RunsOn(lats: seq<real>, n: nat, time: real, cum: seq<real>, t: nat)
    requires n <= t < |cum| == |lats|
  {
    cum[t] == (if t == n then time else cum[t - 1]) + lats[t]
  }

  /** From the readings cum on, the clock standing at `time`, the clock runs on without a break. */
  ghost predicate ClockLaw(tr: Trace, c: Costs, cum: seq<real>, time: real, cum': seq<real>) {
    && |cum| <= |cum'| == |Latencies(tr, c)| && cum == cum'[..|cum|]
    && forall t: nat :: |cum| <= t < |cum'| ==> RunsOn(Latencies(tr, c), |cum|, time, cum', t)
  }

  lemma {:induction false} ClockAppends(
      tr: Trace, tr': Trace, c: Costs, cum: seq<real>, time: real, lats: seq<real>, cum': seq<real>)
    requires GoesOn(tr, tr', c, lats) && |cum| == |Latencies(tr, c)| && cum' == cum + CumFrom(time, lats)
    ensures ClockLaw(tr', c, cum, time, cum')
  {
    var all := Latencies(tr', c);
    forall t: nat | |cum| <= t < |cum'| ensures RunsOn(all, |cum|, time, cum', t) {
      CumFromAt(time, lats, t - |cum|);
      assert all[t] == lats[t - |cum|];
    }
  }

  lemma {:induction false} ClockTwice(
      tr: Trace, tr': Trace, c: Costs, lats: seq<real>, cum: seq<real>, time: real, cum1: seq<real>, cum2: seq<real>)
    requires ClockLaw(tr, c, cum, time, cum1) && Latencies(tr', c) == Latencies(tr, c) + lats
    requires ClockLaw(tr', c, cum1, if |cum1| == |cum| then time else cum1[|cum1| - 1], cum2)
    ensures ClockLaw(tr', c, cum, time, cum2)
  {
    assert cum2[..|cum|] == cum1[..|cum|];
    var all := Latencies(tr', c);
    forall t: nat | |cum| <= t < |cum2| ensures RunsOn(all, |cum|, time, cum2, t) {
      if t < |cum1| {
        assert RunsOn(Latencies(tr, c), |cum|, time, cum1, t);
        assert cum2[t] == cum2[..|cum1|][t] == cum1[t];
        if t > |cum| {
          assert cum2[t - 1] == cum2[..|cum1|][t - 1] == cum1[t - 1];
        }
      } else {
        assert RunsOn(all, |cum1|, if |cum1| == |cum| then time else cum1[|cum1| - 1], cum2, t);
        if t == |cum1| && t > |cum| {
          assert cum2[t - 1] == cum2[..|cum1|][t - 1];
        }
      }
    }
  }

  /** The readings of the prefills of a round. */
  lemma {:induction false} PrefillReadings(u: Setup, y: Control)
    requires u.Valid() && StateInv(u.job, y.st, y.received, false) && |y.cum| == |Latencies(y.st.tr, u.costs)|
    ensures CanPrefill(u.job.lim, y.st) && LogsGrow(y.st.tr, Prefilling(u.job.lim, y.st).tr)
    ensures var z := AfterPrefill(u, y);
            && ClockLaw(z.st.tr, u.costs, y.cum, y.time, z.cum)
            && z.time == LastOr(z.cum, y.time)
            && |z.cum| - |y.cum| == |z.st.tr.steps| - |y.st.tr.steps|
  {
    PrefillingGoesOn(u, y.st, y.received);
    var st' := Prefilling(u.job.lim, y.st);
    ClockAppends(y.st.tr, st'.tr, u.costs, y.cum, y.time, NewPrefillLatencies(y.st.tr, st'.tr, u.costs),
                 AfterPrefill(u, y).cum);
  }

  /** The readings of the decode stretch of a round. */
  lemma {:induction false} DecodeReadings(u: Setup, z: Control, p: SimState, k: nat)
    requires Consistent(u.job, p.tr, p.run, p.wait, z.received, false) && k >= 1 && CanDecode(p)
    requires |z.cum| == |Latencies(p.tr, u.costs)|
    ensures var st' := Decoding(p, k);
            && |p.tr.decodes| <= |st'.tr.decodes|
            && var lats := DecodeLatencies(st'.tr.decodes[|p.tr.decodes|..], u.costs);
               && ClockLaw(st'.tr, u.costs, z.cum, z.time, z.cum + CumFrom(z.time, lats))
               && Latencies(st'.tr, u.costs) == Latencies(p.tr, u.costs) + lats
  {
    RunReady(u.job, p.tr, p.run, p.wait, z.received, false);
    DecodeGoesOn(u.job, p.tr, p.run, k, u.costs);
    var st' := Decoding(p, k);
    var lats := DecodeLatencies(st'.tr.decodes[|p.tr.decodes|..], u.costs);
    ClockAppends(p.tr, st'.tr, u.costs, z.cum, z.time, lats, z.cum + CumFrom(z.time, lats));
  }

  // ----- a whole round

  /** After the check and the prefills of a round. */
  ghost predicate FirstHalfLaw(u: Setup, x: Control, y: Control, z: Control)
    requires u.gap >= 1 && u.job.lim.blockSize >= 1
  {
    var lim := u.job.lim;
    && CheckLaw(u, x, y) && AwaitLaw(u, z) && z.received == y.received
    && AdmittedExactly(lim, y.st.run, y.st.wait, Blocks(y.st.run, 0, lim.blockSize), Admitting(lim, y.st))
    && (z.mustRecord <==> x.mustRecord && |z.st.tr.steps| == |x.st.tr.steps|)
  }

  /** The decode stretch of a round, and the flags it leaves. */
  ghost predicate SecondHalfLaw(u: Setup, z: Control, w: Control)
    requires u.gap >= 1 && u.job.lim.blockSize >= 1
  {
    var p, n, n' := Preempting(u.job.lim, z.st), |z.st.tr.steps|, |w.st.tr.steps|;
    var awaiting := z.needQuery && p.wait == [];
    && p.run != [] && StretchLaw(u.job.lim, p.run, u.gap, awaiting, z.mustRecord, n, n')
    && (w.needQuery <==> awaiting) && (w.mustRecord <==> n' == n || (z.mustRecord && !awaiting))
  }

  lemma {:induction false} FirstHalfObeys(u: Setup, x: Control)
    requires ControlInv(u, x) && Pending(u, x)
    ensures x.received <= |u.arrive| && CanPrefill(u.job.lim, AfterCheck(u, x).st)
    ensures LogsGrow(AfterCheck(u, x).st.tr, Prefilling(u.job.lim, AfterCheck(u, x).st).tr)
    ensures FirstHalfLaw(u, x, AfterCheck(u, x), AfterPrefill(u, AfterCheck(u, x)))
    ensures ClockLaw(AfterPrefill(u, AfterCheck(u, x)).st.tr, u.costs, x.cum, AfterCheck(u, x).time,
                     AfterPrefill(u, AfterCheck(u, x)).cum)
  {
    ChecksWhenDue(u, x);
    CheckKeeps(u, x);
    var y := AfterCheck(u, x);
    PrefillReadings(u, y);
    PrefillCounts(u, y);
    RoundAdmits(u.job, y.st, y.received, false);
  }

  /** A round that admits somebody has a prefill iteration, and no other does. */
  lemma {:induction false} PrefillCounts(u: Setup, y: Control)
    requires u.Valid() && StateInv(u.job, y.st, y.received, false)
    ensures CanPrefill(u.job.lim, y.st)
    ensures Admitting(u.job.lim, y.st).prompts == []
            <==> |Prefilling(u.job.lim, y.st).tr.steps| == |y.st.tr.steps|
  {
    PrefillingGoesOn(u, y.st, y.received);
  }

  lemma {:induction false} SecondHalfObeys(u: Setup, z: Control)
    requires ControlInv(u, z) && z.st.run != []
    ensures Preempting(u.job.lim, z.st).run != [] && CanDecode(Preempting(u.job.lim, z.st))
    ensures SecondHalfLaw(u, z, AfterDecode(u, z))
  {
    var p := Preempting(u.job.lim, z.st);
    PreemptedReady(u, z);
    StretchEnds(u, z, p, z.needQuery && p.wait == []);
    StretchLength(u, z, p, z.needQuery && p.wait == []);
    UpToCheckFacts(|p.tr.steps|, z.mustRecord, u.gap);
    StretchFlags(u, z, p);
  }

  lemma {:induction false} StretchFlags(u: Setup, z: Control, p: SimState)
    requires u.job.lim.blockSize >= 1 && u.gap >= 1 && p == Preempting(u.job.lim, z.st) && p.run != [] && CanDecode(p)
    ensures var w, awaiting := AfterDecode(u, z), z.needQuery && p.wait == [];
            && (w.needQuery <==> awaiting)
            && (w.mustRecord <==> |w.st.tr.steps| == |z.st.tr.steps| || (z.mustRecord && !awaiting))
  {
  }

  lemma {:induction false} StretchClock(u: Setup, z: Control, p: SimState, cum: seq<real>, time: real)
    requires u.job.lim.blockSize >= 1 && u.gap >= 1 && p == Preempting(u.job.lim, z.st) && p.run != [] && CanDecode(p)
    requires Consistent(u.job, p.tr, p.run, p.wait, z.received, false) && |z.cum| == |Latencies(p.tr, u.costs)|
    requires ClockLaw(p.tr, u.costs, cum, time, z.cum) && z.time == if |z.cum| == |cum| then time
             else z.cum[|z.cum| - 1]
    ensures ClockLaw(AfterDecode(u, z).st.tr, u.costs, cum, time, AfterDecode(u, z).cum)
  {
    var k := ClampedSteps(u, p, z.needQuery && p.wait == [], z.mustRecord);
    if k >= 1 {
      DecodeReadings(u, z, p, k);
      var st' := Decoding(p, k);
      var lats := DecodeLatencies(st'.tr.decodes[|p.tr.decodes|..], u.costs);
      StretchState(u, z, p, k, st', lats);
      ClockTwice(p.tr, st'.tr, u.costs, lats, cum, time, z.cum, z.cum + CumFrom(z.time, lats));
    }
  }

  lemma {:induction false} StretchState(
      u: Setup, z: Control, p: SimState, k: nat, st': SimState, lats: seq<real>)
    requires u.job.lim.blockSize >= 1 && u.gap >= 1 && p == Preempting(u.job.lim, z.st) && p.run != [] && CanDecode(p)
    requires k == ClampedSteps(u, p, z.needQuery && p.wait == [], z.mustRecord) && k >= 1 && st' == Decoding(p, k)
    requires |p.tr.decodes| <= |st'.tr.decodes|
    requires lats == DecodeLatencies(st'.tr.decodes[|p.tr.decodes|..], u.costs)
    ensures AfterDecode(u, z).st == st' && AfterDecode(u, z).cum == z.cum + CumFrom(z.time, lats)
  {
  }

  /** The readings of a decode stretch run on from the clock. */
  lemma {:induction false} SecondHalfClock(u: Setup, z: Control, cum: seq<real>, time: real)
    requires ControlInv(u, z) && z.st.run != []
    requires ClockLaw(z.st.tr, u.costs, cum, time, z.cum) && z.time == if |z.cum| == |cum| then time
             else z.cum[|z.cum| - 1]
    ensures Preempting(u.job.lim, z.st).run != [] && CanDecode(Preempting(u.job.lim, z.st))
    ensures ClockLaw(AfterDecode(u, z).st.tr, u.costs, cum, time, AfterDecode(u, z).cum)
  {
    PreemptingKeeps(u.job, z.st, z.received, false);
    StretchClock(u, z, Preempting(u.job.lim, z.st), cum, time);
  }

  /** What a round does, in plain terms. */
  ghost predicate RoundLaw(u: Setup, x: Control, x': Control) {
    && CanRound(u, x)
    && var y := AfterCheck(u, x);
       var z := AfterPrefill(u, y);
       && FirstHalfLaw(u, x, y, z)
       && (if z.st.run == [] then x' == z else SecondHalfLaw(u, z, x'))
       && ClockLaw(x'.st.tr, u.costs, x.cum, y.time, x'.cum)
  }

  /** Every round obeys it. */
  lemma {:induction false} RoundObeys(u: Setup, x: Control)
    requires ControlInv(u, x) && Pending(u, x)
    ensures CanRound(u, x) && RoundLaw(u, x, AfterRound(u, x))
  {
    RoundKeeps(u, x);
    FirstHalfObeys(u, x);
    FirstHalfKeeps(u, x);
    var y := AfterCheck(u, x);
    var z := AfterPrefill(u, y);
    FirstHalfTime(u, x);
    if z.st.run != [] {
      SecondHalfObeys(u, z);
      SecondHalfClock(u, z, x.cum, y.time);
    }
  }

  /** Where the clock stands after the prefills. */
  lemma {:induction false} FirstHalfTime(u: Setup, x: Control)
    requires ControlInv(u, x) && Pending(u, x)
    ensures x.received <= |u.arrive| && CanPrefill(u.job.lim, AfterCheck(u, x).st)
    ensures LogsGrow(AfterCheck(u, x).st.tr, Prefilling(u.job.lim, AfterCheck(u, x).st).tr)
    ensures var y := AfterCheck(u, x);
            var z := AfterPrefill(u, y);
            |x.cum| <= |z.cum| && z.time == if |z.cum| == |x.cum| then y.time else z.cum[|z.cum| - 1]
  {
    CheckKeeps(u, x);
    var y := AfterCheck(u, x);
    PrefillReadings(u, y);
    PrefillCounts(u, y);
    AdmitsSomeone(u, y.st, y.received);
  }
}
