/** The simulator without arrivals: everything is in the waiting list from the start. */
module Offline {
  import opened Requests
  import opened DecodeJump
  import opened Traces
  import opened TraceInvariant
  import opened FirstCome
  import opened Resume
  import opened Simulation
  import opened SchedulerState

  /** What a round needs of the state it starts from. */
  ghost predicate CanRound(lim: Limits, st: SimState)
    requires lim.blockSize >= 1
  {
    && CanPrefill(lim, st)
    && var st1 := Prefilling(lim, st);
       if st1.run == [] then st1.wait == []
       else CanDecode(Preempting(lim, st1)) && Steps(lim, Preempting(lim, st1)) >= 0
  }

  /** A whole round as a function. */
  ghost function RoundOf(lim: Limits, st: SimState): SimState
    requires lim.blockSize >= 1 && CanRound(lim, st)
  {
    var st1 := Prefilling(lim, st);
    if st1.run == [] then st1
    else
      var st2 := Preempting(lim, st1);
      Decoding(st2, Steps(lim, st2))
  }

  /** What holds between rounds. */
  ghost predicate Between(job: Job, st: SimState)
    requires job.lim.blockSize >= 1
  {
    StateInv(job, st, |job.inp|, true) && StartsInOrder(st.tr.progress) && ResumeInv(st.tr, st.run)
  }

  /** A round keeps every invariant, keeps the starting order, and leaves fewer tokens to generate
      unless it ends the simulation. */
  lemma {:induction false} RoundKeeps(job: Job, st: SimState)
    requires AllServableJob(job) && StateInv(job, st, |job.inp|, true)
    requires StartsInOrder(st.tr.progress) && ResumeInv(st.tr, st.run)
    ensures CanRound(job.lim, st)
    ensures var st' := RoundOf(job.lim, st);
            && StateInv(job, st', |job.inp|, true)
            && StartsInOrder(st'.tr.progress) && ResumeInv(st'.tr, st'.run)
            && (st'.run + st'.wait != [] ==> TotalOwed(job, st'.tr) < TotalOwed(job, st.tr))
  {
    var n := |job.inp|;
    PrefillingKeeps(job, st, n, true);
    PrefillingResumes(job, st, n, true);
    AdmitOrder(job, st.tr, st.run, st.wait);
    if Prefilling(job.lim, st).run != [] {
      SecondHalfKeeps(job, Prefilling(job.lim, st));
    }
  }

  lemma {:induction false} SecondHalfKeeps(job: Job, st1: SimState)
    requires AllServableJob(job) && StateInv(job, st1, |job.inp|, true) && st1.run != []
    requires StartsInOrder(st1.tr.progress) && ResumeInv(st1.tr, st1.run)
    ensures CanDecode(Preempting(job.lim, st1)) && Steps(job.lim, Preempting(job.lim, st1)) >= 0
    ensures var st2 := Preempting(job.lim, st1);
            var st' := Decoding(st2, Steps(job.lim, st2));
            && StateInv(job, st', |job.inp|, true)
            && StartsInOrder(st'.tr.progress) && ResumeInv(st'.tr, st'.run)
            && TotalOwed(job, st'.tr) < TotalOwed(job, st1.tr)
  {
    var n := |job.inp|;
    PreemptingKeeps(job, st1, n, true);
    var st2 := Preempting(job.lim, st1);
    DecodeOrder(job, st2.tr, st2.run, st2.wait, Steps(job.lim, st2));
    DecodingKeeps(job, st2, Steps(job.lim, st2), n, true);
    DecodingResumes(job, st2, Steps(job.lim, st2), n, true);
  }

  function Start(job: Job): SimState
    requires |job.inp| == |job.out|
  {
    SimState([], InitialReqs(job.inp, job.out, |job.inp|), EmptyTrace(|job.inp|))
  }

  predicate Ended(st: SimState) {
    st.run == [] && st.wait == []
  }

  lemma {:induction false} Starts(job: Job)
    requires AllServableJob(job)
    ensures Between(job, Start(job))
  {
    StartRound(job, |job.inp|, true);
  }

  /** Tokens still owed, while there are requests to serve. */
  ghost function ToGo(job: Job, st: SimState): int {
    if Ended(st) then 0 else 1 + TotalOwed(job, st.tr)
  }

  lemma {:induction false} RoundGoesOn(job: Job, st: SimState)
    requires AllServableJob(job) && Between(job, st) && !Ended(st)
    ensures CanRound(job.lim, st) && Between(job, RoundOf(job.lim, st))
    ensures 0 <= ToGo(job, RoundOf(job.lim, st)) < ToGo(job, st)
  {
    RoundKeeps(job, st);
    OwedNonNegative(job, st, |job.inp|, true);
    OwedNonNegative(job, RoundOf(job.lim, st), |job.inp|, true);
  }

  /** Rounds until nobody runs or waits: what the simulation computes. */
  ghost function Finish(job: Job, st: SimState): SimState
    requires AllServableJob(job) && Between(job, st)
    decreases ToGo(job, st)
  {
    if Ended(st) then st
    else
      RoundGoesOn(job, st);
      Finish(job, RoundOf(job.lim, st))
  }

  lemma {:induction false} OneRoundEnough(job: Job, st: SimState)
    requires AllServableJob(job) && Between(job, st) && !Ended(st)
    ensures CanRound(job.lim, st) && (Ended(RoundOf(job.lim, st)) ==> Finish(job, st) == RoundOf(job.lim, st))
  {
    RoundGoesOn(job, st);
    assert Finish(job, st) == Finish(job, RoundOf(job.lim, st));
  }

  /** The second half of a round: preempt, then decode as far as it goes. */
  method PreemptAndDecode(s: Scheduler)
    requires s.Valid() && s.State().run != [] && s.blockUsed == Blocks(s.Run(), 0, s.lim.blockSize)
    requires CanDecode(Preempting(s.lim, s.State())) && Steps(s.lim, Preempting(s.lim, s.State())) >= 0
    modifies s, s.runId, s.runLen, s.runRem, s.inpLens, s.outLens
    ensures s.Valid() && s.Outstanding() == old(s.Outstanding()) && s.blockUsed == Blocks(s.Run(), 0, s.lim.blockSize)
    ensures var st := Preempting(s.lim, old(s.State())); s.State() == Decoding(st, Steps(s.lim, st))
  {
    s.KillForCacheSpace();
    var k := IterNum(s.Run(), s.blockUsed, s.lim);
    s.DecodeAndCompact(k);
  }

  /** One round on the working state. */
  method Round(s: Scheduler)
    requires s.Valid() && s.Outstanding() == 0 && s.unfinished != 0
    requires CanRound(s.lim, s.State()) && s.blockUsed == Blocks(s.Run(), 0, s.lim.blockSize)
    modifies s, s.runId, s.runLen, s.runRem, s.inpLens, s.outLens
    ensures s.Valid() && s.Outstanding() == 0 && s.blockUsed == Blocks(s.Run(), 0, s.lim.blockSize)
    ensures s.State() == RoundOf(s.lim, old(s.State()))
  {
    var _ := s.AdmitAndPrefill();
    if s.unfinished != 0 {
      PreemptAndDecode(s);
    }
  }

  /** Simulate to the end. */
  method ScheduleWithoutArrivals(inp: seq<int>, out: seq<int>, lim: Limits)
    returns (logs: seq<DecodeLog>, prefillLogs: seq<PrefillLog>, isPrefill: seq<bool>,
             progress: seq<seq<int>>, validLogs: seq<ValidLog>)
    requires AllServableJob(Job(inp, out, lim))
    ensures Complete(Job(inp, out, lim), Trace(progress, isPrefill, prefillLogs, validLogs, logs))
    ensures StartsInOrder(progress)
    ensures Between(Job(inp, out, lim), Start(Job(inp, out, lim)))
    ensures Trace(progress, isPrefill, prefillLogs, validLogs, logs)
            == Finish(Job(inp, out, lim), Start(Job(inp, out, lim))).tr
  {
    ghost var job, n := Job(inp, out, lim), |inp|;
    var s := new Scheduler(lim, inp, out, seq(|inp|, i => i));
    Starts(job);
    ghost var st := Start(job);
    assert s.State() == st;
    while s.unfinished != 0
      invariant s.Valid() && s.lim == lim && fresh(s)
      invariant fresh(s.runId) && fresh(s.runLen) && fresh(s.runRem) && fresh(s.inpLens) && fresh(s.outLens)
      invariant s.Outstanding() == 0 && s.State() == st && s.blockUsed == Blocks(st.run, 0, lim.blockSize)
      invariant Between(job, st) && Finish(job, st) == Finish(job, Start(job))
      decreases ToGo(job, st)
    {
      RoundGoesOn(job, st);
      Round(s);
      st := RoundOf(lim, st);
    }
    AllServed(job, st, true);
    return s.logs, s.prefillLogs, s.isPrefill, s.progress, s.validLogs;
  }
}
