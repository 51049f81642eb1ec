/** The simulator with arrivals on the working state. */
module Arrivals {
  import opened Requests
  import opened DecodeJump
  import opened Traces
  import opened TraceInvariant
  import opened Queues
  import opened Simulation
  import opened SchedulerState
  import opened ArrivalCheck
  import opened Clock
  import opened ArrivalRounds
  import opened CheckPoints

  // ----- the loop on the working state

  /** The working state holds exactly what the control state says. */
  ghost predicate Holds(u: Setup, x: Control, s: Scheduler, arrive: array<real>)
    reads s, s.runId, s.runLen, s.runRem, s.inpLens, s.outLens, arrive
  {
    && s.Valid() && s.lim == u.job.lim && s.State() == x.st && |s.seqIds| == x.received
    && s.blockUsed == Blocks(x.st.run, 0, s.lim.blockSize)
    && s.inpLens.Length == arrive.Length == |u.job.inp| == |u.job.out| == |u.arrive|
    && s.inpLens[x.received..] == u.job.inp[x.received..]
    && s.outLens[x.received..] == u.job.out[x.received..]
    && arrive[x.received..] == u.arrive[x.received..]
    && s.Outstanding() == |u.job.inp| - x.received
  }

  lemma {:induction false} CheckDependsOnTail(a: seq<real>, b: seq<real>, n: nat, busy: bool, time: real)
    requires |a| == |b| && n <= |a| && a[n..] == b[n..]
    ensures CheckEnd(a, n, busy, time) == CheckEnd(b, n, busy, time)
    ensures CheckTime(a, n, busy, time) == CheckTime(b, n, busy, time)
  {
    assert forall i :: n <= i < |a| ==> a[i] == a[n..][i - n] == b[n..][i - n] == b[i];
    if n < |a| {
      EndDependsOnTail(a, b, n, CheckTime(a, n, busy, time));
    }
  }

  lemma {:induction false} EndDependsOnTail(a: seq<real>, b: seq<real>, n: nat, time: real)
    requires |a| == |b| && n <= |a| && forall i :: n <= i < |a| ==> a[i] == b[i]
    ensures ArrivalEnd(a, n, time) == ArrivalEnd(b, n, time)
    decreases |a| - n
  {
    if n < |a| && a[n] <= time {
      EndDependsOnTail(a, b, n + 1, time);
    }
  }

  lemma {:induction false} NewReqsOnTail(job: Job, cur: Job, n: nat, e: nat)
    requires n <= e <= |job.inp| == |job.out| == |cur.inp| == |cur.out|
    requires cur.inp[n..] == job.inp[n..] && cur.out[n..] == job.out[n..]
    ensures NewReqs(cur, n, e) == NewReqs(job, n, e)
  {
    assert forall i :: n <= i < |job.inp| ==> cur.inp[i] == cur.inp[n..][i - n] == job.inp[i];
    assert forall i :: n <= i < |job.inp| ==> cur.out[i] == cur.out[n..][i - n] == job.out[i];
  }

  lemma {:induction false} TailOfTail<T>(a: seq<T>, b: seq<T>, n: nat, e: nat)
    requires n <= e <= |a| == |b| && a[n..] == b[n..]
    ensures a[e..] == b[e..]
  {
    assert a[e..] == a[n..][e - n..] && b[e..] == b[n..][e - n..];
  }

  /** Check for arrivals when it is time to. */
  method CheckIfDue(s: Scheduler, sortInput: bool, gap: int, arrive: array<real>, needQuery: bool, time: real,
                    ghost u: Setup, ghost x: Control) returns (now: real)
    requires u.Valid() && u.gap == gap && u.sortInput == sortInput && x.received <= |u.arrive|
    requires Holds(u, x, s, arrive) && x.needQuery == needQuery && x.time == time
    requires needQuery ==> x.st.wait == []
    modifies s`seqIds, s.inpLens, s.outLens, arrive
    ensures Holds(u, AfterCheck(u, x), s, arrive) && now == AfterCheck(u, x).time
  {
    now := time;
    if (s.runNum == 0 && s.pointer == |s.seqIds|) || (needQuery && s.iter % gap == 0) {
      ghost var cur, n := Job(s.inpLens[..], s.outLens[..], s.lim), x.received;
      ghost var e := CheckEnd(u.arrive, n, x.st.run != [], time);
      CheckFacts(u.arrive, n, x.st.run != [], time);
      CheckDependsOnTail(arrive[..], u.arrive, n, x.st.run != [], time);
      NewReqsOnTail(u.job, cur, n, e);
      TailOfTail(s.inpLens[..], u.job.inp, n, e);
      TailOfTail(s.outLens[..], u.job.out, n, e);
      TailOfTail(arrive[..], u.arrive, n, e);
      now := CheckNewInputRequests(s, sortInput, arrive, time);
    }
  }

  /** Admit and prefill, and advance the clock by the prefill latencies. */
  method AdmitAndClock(s: Scheduler, arrive: array<real>, costs: Costs, must: bool, time: real, cum: seq<real>,
                       ghost u: Setup, ghost x: Control)
    returns (needQuery: bool, must': bool, time': real, cum': seq<real>)
    requires Holds(u, x, s, arrive) && u.costs == costs
    requires x.mustRecord == must && x.time == time && x.cum == cum
    requires u.job.lim.blockSize >= 1 && CanPrefill(u.job.lim, x.st)
    requires LogsGrow(x.st.tr, Prefilling(u.job.lim, x.st).tr)
    modifies s`runNum, s`pointer, s`blockUsed, s`unfinished, s.runId, s.runLen, s.runRem
    modifies s`progress, s`iter, s`isPrefill, s`prefillLogs, s`validLogs
    ensures Holds(u, AfterPrefill(u, x), s, arrive)
    ensures var y := AfterPrefill(u, x);
            needQuery == y.needQuery && must' == y.mustRecord && time' == y.time && cum' == y.cum
  {
    var logged := |s.prefillLogs|;
    var count := s.AdmitAndPrefill();
    needQuery := |s.seqIds| < s.inpLens.Length && s.pointer == |s.seqIds|
                 && EnoughCache(s.lim, s.blockUsed, 1) && s.runNum < s.lim.maxSeqs;
    cum' := cum + CumFrom(time, PrefillLatencies(s.prefillLogs[logged..], s.validLogs[logged..], costs));
    time' := LastOr(cum', time);
    must' := must && count == 0;
  }

  /** Preempt, and decide how many steps to decode and whether arrivals are still awaited. */
  method PreemptAndClamp(s: Scheduler, arrive: array<real>, gap: int, needQuery: bool, must: bool,
                         ghost u: Setup, ghost z: Control) returns (query: bool, k: int)
    requires Holds(u, z, s, arrive) && u.gap == gap >= 1 && z.needQuery == needQuery && z.mustRecord == must
    requires z.st.run != [] && Preempting(u.job.lim, z.st).run != []
    modifies s`runNum, s`pointer, s`seqIds, s`blockUsed, s.inpLens, s.outLens
    ensures Holds(u, z.(st := Preempting(u.job.lim, z.st)), s, arrive)
    ensures query == (needQuery && Preempting(u.job.lim, z.st).wait == [])
    ensures k == ClampedSteps(u, Preempting(u.job.lim, z.st), query, must)
  {
    s.KillForCacheSpace();
    assert s.State() == Preempting(u.job.lim, z.st);
    query := needQuery;
    if s.pointer < |s.seqIds| {
      query := false;
    }
    k := IterNum(s.Run(), s.blockUsed, s.lim);
    if query {
      var g := (s.iter + (if must then 1 else 0) + gap - 1) / gap * gap - s.iter;
      k := if k <= g then k else g;
    }
  }

  /** k decode steps, compaction, and their time. */
  method DecodeAndClock(s: Scheduler, arrive: array<real>, k: nat, costs: Costs, time: real, cum: seq<real>,
                        ghost u: Setup, ghost z: Control)
    returns (time': real, cum': seq<real>)
    requires Holds(u, z, s, arrive) && CanDecode(z.st)
    modifies s`runNum, s`blockUsed, s`unfinished, s`progress, s`iter, s`isPrefill, s`logs
    modifies s.runId, s.runLen, s.runRem
    ensures Holds(u, z.(st := Decoding(z.st, k)), s, arrive)
    ensures |z.st.tr.decodes| <= |Decoding(z.st, k).tr.decodes|
    ensures cum' == cum + CumFrom(time, DecodeLatencies(Decoding(z.st, k).tr.decodes[|z.st.tr.decodes|..], costs))
    ensures time' == LastOr(cum', time)
  {
    var logged := |s.logs|;
    s.DecodeAndCompact(k);
    cum' := cum + CumFrom(time, DecodeLatencies(s.logs[logged..], costs));
    time' := LastOr(cum', time);
  }

  /** Preempt, decode up to the next check, compact, and advance the clock. */
  method SecondHalf(s: Scheduler, arrive: array<real>, gap: int, costs: Costs, needQuery: bool, must: bool,
                    time: real, cum: seq<real>, ghost u: Setup, ghost z: Control)
    returns (needQuery': bool, must': bool, time': real, cum': seq<real>)
    requires Holds(u, z, s, arrive) && u.costs == costs && u.gap == gap >= 1
    requires z == Control(z.st, z.received, needQuery, must, time, cum)
    requires z.st.run != [] && Preempting(u.job.lim, z.st).run != [] && CanDecode(Preempting(u.job.lim, z.st))
    modifies s`runNum, s`pointer, s`seqIds, s`blockUsed, s`unfinished, s`progress, s`iter, s`isPrefill, s`logs
    modifies s.runId, s.runLen, s.runRem, s.inpLens, s.outLens
    ensures Holds(u, AfterDecode(u, z), s, arrive)
    ensures AfterDecode(u, z) == Control(AfterDecode(u, z).st, z.received, needQuery', must', time', cum')
  {
    ghost var p := z.(st := Preempting(u.job.lim, z.st));
    var k;
    needQuery', k := PreemptAndClamp(s, arrive, gap, needQuery, must, u, z);
    must' := must && !needQuery';
    if k <= 0 {
      must', time', cum' := true, time, cum;
      return;
    }
    time', cum' := DecodeAndClock(s, arrive, k, costs, time, cum, u, p);
  }

  /** One round on the working state. */
  method Round(s: Scheduler, sortInput: bool, gap: int, arrive: array<real>, costs: Costs, needQuery: bool, must: bool,
               time: real, cum: seq<real>, ghost u: Setup, ghost x: Control)
    returns (needQuery': bool, must': bool, time': real, cum': seq<real>)
    requires CanRound(u, x) && Holds(u, x, s, arrive)
    requires u.costs == costs && u.gap == gap && u.sortInput == sortInput
    requires x == Control(x.st, x.received, needQuery, must, time, cum)
    modifies s, s.runId, s.runLen, s.runRem, s.inpLens, s.outLens, arrive
    ensures Holds(u, AfterRound(u, x), s, arrive)
    ensures AfterRound(u, x) == Control(AfterRound(u, x).st, AfterRound(u, x).received, needQuery', must', time', cum')
  {
    ghost var y := AfterCheck(u, x);
    ghost var z := AfterPrefill(u, y);
    var now := CheckIfDue(s, sortInput, gap, arrive, needQuery, time, u, x);
    needQuery', must', time', cum' := AdmitAndClock(s, arrive, costs, must, now, cum, u, y);
    if s.runNum == 0 {
      return;
    }
    needQuery', must', time', cum' := SecondHalf(s, arrive, gap, costs, needQuery', must', time', cum', u, z);
  }

  // ----- whole runs

  function Start(u: Setup): Control {
    Control(SimState([], [], EmptyTrace(|u.job.inp|)), 0, true, false, 0.0, [])
  }

  /** One state of a run and the next: a round lies between them. */
  ghost predicate Next(u: Setup, x: Control, x': Control) {
    Pending(u, x) && CanRound(u, x) && x' == AfterRound(u, x) && RoundLaw(u, x, x')
  }

  /** The states of a run so far, from the start. */
  ghost predicate RunSoFar(u: Setup, xs: seq<Control>) {
    xs != [] && xs[0] == Start(u) && forall k :: 1 <= k < |xs| ==> Next(u, xs[k - 1], xs[k])
  }

  lemma {:induction false} OneMoreRound(u: Setup, xs: seq<Control>, x': Control)
    requires RunSoFar(u, xs) && Next(u, xs[|xs| - 1], x')
    ensures RunSoFar(u, xs + [x'])
  {
    var ys := xs + [x'];
    forall k | 1 <= k < |ys| ensures Next(u, ys[k - 1], ys[k]) {
      if k < |xs| {
        assert Next(u, xs[k - 1], xs[k]);
      }
    }
  }

  lemma {:induction false} StartInv(u: Setup)
    requires u.Valid()
    ensures ControlInv(u, Start(u))
  {
    StartRound(u.job, 0, false);
    assert InitialReqs(u.job.inp, u.job.out, 0) == [];
  }

  lemma {:induction false} EndOfRun(u: Setup, x: Control)
    requires ControlInv(u, x) && !Pending(u, x)
    ensures Complete(u.job, x.st.tr) && Causal(x.st.tr, u.costs, u.arrive, x.cum)
  {
    AllServed(u.job, x.st, false);
  }

  /** Rounds until nobody is left. */
  method RunToEnd(
      s: Scheduler, sortInput: bool, gap: int, arrive: array<real>, costs: Costs, ghost u: Setup)
    returns (cum: seq<real>, ghost run: seq<Control>)
    requires u.Valid() && Holds(u, Start(u), s, arrive)
    requires u.gap == gap && u.sortInput == sortInput && u.costs == costs
    modifies s, s.runId, s.runLen, s.runRem, s.inpLens, s.outLens, arrive
    ensures RunSoFar(u, run)
    ensures var x := run[|run| - 1]; Holds(u, x, s, arrive) && ControlInv(u, x) && x.cum == cum && !Pending(u, x)
  {
    var needQuery, must, time := true, false, 0.0;
    ghost var x := Start(u);
    StartInv(u);
    cum, run := [], [x];
    while s.unfinished != 0
      invariant Holds(u, x, s, arrive) && ControlInv(u, x)
      invariant x == Control(x.st, x.received, needQuery, must, time, cum)
      invariant RunSoFar(u, run) && run[|run| - 1] == x
      decreases if s.unfinished != 0 then 1 else 0, TotalOwed(u.job, x.st.tr), if must then 0 else 1
    {
      RoundKeeps(u, x);
      RoundObeys(u, x);
      needQuery, must, time, cum := Round(s, sortInput, gap, arrive, costs, needQuery, must, time, cum, u, x);
      OneMoreRound(u, run, AfterRound(u, x));
      x := AfterRound(u, x);
      run := run + [x];
    }
  }

  /** Simulate to the end, receiving requests as they arrive. The result is that of a run from the start
      every round of which obeys the law of rounds. */
  method ScheduleWithArrivals(
      inp: seq<int>, out: seq<int>, arriveTimes: seq<real>, gap: int, lim: Limits, sortInput: bool, costs: Costs)
    returns (cum: seq<real>, isPrefill: seq<bool>, progress: seq<seq<int>>,
             prefillLogs: seq<PrefillLog>, logs: seq<DecodeLog>, validLogs: seq<ValidLog>, ghost run: seq<Control>)
    requires Setup(Job(inp, out, lim), arriveTimes, gap, sortInput, costs).Valid()
    ensures Complete(Job(inp, out, lim), Trace(progress, isPrefill, prefillLogs, validLogs, logs))
    ensures Causal(Trace(progress, isPrefill, prefillLogs, validLogs, logs), costs, arriveTimes, cum)
    ensures RunSoFar(Setup(Job(inp, out, lim), arriveTimes, gap, sortInput, costs), run)
    ensures !Pending(Setup(Job(inp, out, lim), arriveTimes, gap, sortInput, costs), run[|run| - 1])
    ensures run[|run| - 1].st.tr == Trace(progress, isPrefill, prefillLogs, validLogs, logs)
    ensures run[|run| - 1].cum == cum
  {
    ghost var u := Setup(Job(inp, out, lim), arriveTimes, gap, sortInput, costs);
    var s := new Scheduler(lim, inp, out, []);
    var arrive := new real[|arriveTimes|](i requires 0 <= i < |arriveTimes| => arriveTimes[i]);
    assert s.Wait() == [] && arrive[..] == arriveTimes;
    cum, run := RunToEnd(s, sortInput, gap, arrive, costs, u);
    EndOfRun(u, run[|run| - 1]);
    return cum, s.isPrefill, s.progress, s.prefillLogs, s.logs, s.validLogs, run;
  }
}
