/** A simulator round as a function of the state, and what it keeps. */
module Simulation {
  import opened Lists
  import opened Requests
  import opened Ranges
  import opened DecodeJump
  import opened Packing
  import opened Traces
  import opened TraceInvariant
  import opened TraceSteps
  import opened Queues
  import opened Rounds
  import opened Resume

  datatype SimState = SimState(run: seq<Req>, wait: seq<Req>, tr: Trace)

  // ----- the steps of a round

  function Admitting(lim: Limits, st: SimState): Admission
    requires lim.blockSize >= 1
  {
    Admit(lim, st.run, st.wait, Blocks(st.run, 0, lim.blockSize))
  }

  /** The admitted prompts pack into batches of known requests. */
  ghost predicate CanPrefill(lim: Limits, st: SimState)
    requires lim.blockSize >= 1
  {
    var prompts := AsPrompts(Admitting(lim, st).prompts);
    && InRange(Ids(prompts), |st.tr.progress|)
    && Pack(prompts, lim.maxTokens).Batches?
    && BatchesFor(Pack(prompts, lim.maxTokens).batches, |st.tr.progress|)
  }

  /** Admit, then prefill what was admitted. */
  ghost function Prefilling(lim: Limits, st: SimState): SimState
    requires lim.blockSize >= 1 && CanPrefill(lim, st)
  {
    var a := Admitting(lim, st);
    SimState(a.run, a.wait, PrefillAll(st.tr, Pack(AsPrompts(a.prompts), lim.maxTokens).batches))
  }

  /** Preempt the requests that may not find room. */
  ghost function Preempting(lim: Limits, st: SimState): SimState
    requires lim.blockSize >= 1
  {
    var k := Kept(lim, st.run);
    SimState(st.run[..k], st.run[k..] + st.wait, st.tr)
  }

  ghost predicate CanDecode(st: SimState) {
    st.run != [] && InRange(Ids(AsPrompts(st.run)), |st.tr.progress|)
  }

  /** The number of decode steps until a request finishes or the cache is full. */
  function Steps(lim: Limits, st: SimState): int
    requires lim.blockSize >= 1 && st.run != []
  {
    IterNum(st.run, Blocks(st.run, 0, lim.blockSize), lim)
  }

  /** k decode steps, then compaction. */
  ghost function Decoding(st: SimState, k: nat): SimState
    requires CanDecode(st)
  {
    SimState(Unfinished(Advance(st.run, k)), st.wait, Decode(st.tr, st.run, k))
  }

  ghost predicate StateInv(job: Job, st: SimState, received: nat, fifo: bool) {
    RoundInv(job, st.tr, st.run, st.wait, received, fifo)
  }

  // ----- start and end

  /** What a finished simulation returns: a trace that satisfies the invariant, in which running
      requests move together and every request has had exactly its output length in iterations. */
  ghost predicate Complete(job: Job, tr: Trace) {
    && job.Valid()
    && TraceInv(job, tr)
    && DecodesResume(tr)
    && forall i :: 0 <= i < |job.inp| ==> Total(tr.progress[i]) == job.out[i]
  }

  ghost predicate AllServableJob(job: Job) {
    job.Valid() && AllServable(job)
  }

  function InitialReqs(inp: seq<int>, out: seq<int>, n: nat): (w: seq<Req>)
    requires n <= |inp| == |out|
    ensures |w| == n && forall i :: 0 <= i < n ==> w[i] == Req(i, inp[i], out[i])
  {
    seq(n, i requires 0 <= i < n => Req(i, inp[i], out[i]))
  }

  function EmptyTrace(n: nat): (tr: Trace)
    ensures |tr.progress| == n && forall i :: 0 <= i < n ==> tr.progress[i] == []
  {
    Trace(seq(n, _ => []), [], [], [], [])
  }

  lemma {:induction false} StartTrace(job: Job)
    requires job.Valid()
    ensures TraceInv(job, EmptyTrace(|job.inp|))
  {
    var tr := EmptyTrace(|job.inp|);
    SumNone(TokensAt(job.inp, -1), tr.progress);
    SumNone(ContextAt(job.inp, -1), tr.progress);
  }

  lemma {:induction false} StartRound(job: Job, n: nat, fifo: bool)
    requires job.Valid() && n <= |job.inp|
    ensures StateInv(job, SimState([], InitialReqs(job.inp, job.out, n), EmptyTrace(|job.inp|)), n, fifo)
  {
    StartTrace(job);
    var tr, wait := EmptyTrace(|job.inp|), InitialReqs(job.inp, job.out, n);
    var done := DoneOf(tr.progress);
    assert [] + wait == wait;
    forall i | 0 <= i < |wait| ensures LinkedAt(job, wait[i], n, done) {
    }
    forall i: nat | i < |done| ensures CoveredAt(job, wait, n, done, i) {
      if i < n {
        assert wait[i].id == i;
      }
    }
  }

  /** With nothing running or waiting and everything received, every request has had exactly its
      output length in iterations. */
  lemma {:induction false} AllServed(job: Job, st: SimState, fifo: bool)
    requires StateInv(job, st, |job.inp|, fifo) && st.run == [] && st.wait == []
    ensures forall i :: 0 <= i < |job.inp| ==> Total(st.tr.progress[i]) == job.out[i]
  {
    forall i: nat | i < |job.inp| ensures Total(st.tr.progress[i]) == job.out[i] {
      assert CoveredAt(job, [] + [], |job.inp|, DoneOf(st.tr.progress), i);
      assert !Present([] + [], i);
    }
  }

  // ----- termination

  function Owed(out: seq<int>): (nat, seq<int>) -> int {
    (i: nat, r: seq<int>) => if i < |out| then out[i] - Total(r) else 0
  }

  /** Tokens still to be generated, over all requests. */
  function TotalOwed(job: Job, tr: Trace): int {
    SumReq(Owed(job.out), tr.progress)
  }

  lemma {:induction false} SumReqLess(f: (nat, seq<int>) -> int, p: seq<seq<int>>, q: seq<seq<int>>)
    requires |p| == |q| && forall i :: 0 <= i < |p| ==> f(i, q[i]) <= f(i, p[i])
    ensures SumReq(f, q) <= SumReq(f, p)
    ensures (exists i :: 0 <= i < |p| && f(i, q[i]) < f(i, p[i])) ==> SumReq(f, q) < SumReq(f, p)
  {
    if p != [] {
      var n := |p| - 1;
      SumReqLess(f, p[..n], q[..n]);
      if i :| 0 <= i < |p| && f(i, q[i]) < f(i, p[i]) {
        if i < n {
          assert f(i, q[..n][i]) < f(i, p[..n][i]);
        }
      }
    }
  }

  lemma {:induction false} SumReqNonNegative(f: (nat, seq<int>) -> int, p: seq<seq<int>>)
    requires forall i :: 0 <= i < |p| ==> f(i, p[i]) >= 0
    ensures SumReq(f, p) >= 0
  {
    if p != [] {
      SumReqNonNegative(f, p[..|p| - 1]);
    }
  }

  lemma {:induction false} OwedNonNegative(job: Job, st: SimState, received: nat, fifo: bool)
    requires StateInv(job, st, received, fifo)
    ensures TotalOwed(job, st.tr) >= 0
  {
    var tr, run, wait := st.tr, st.run, st.wait;
    forall i: nat | i < |tr.progress| ensures Owed(job.out)(i, tr.progress[i]) >= 0 {
      assert CoveredAt(job, run + wait, received, DoneOf(tr.progress), i);
    }
    SumReqNonNegative(Owed(job.out), tr.progress);
  }

  lemma {:induction false} PrefillOwes(job: Job, tr: Trace, tr': Trace, prompts: seq<Req>)
    requires |tr.progress| == |tr'.progress| == |job.out|
    requires forall i :: 0 <= i < |prompts| ==> prompts[i].id < |tr.progress|
    requires forall i: nat :: i < |tr.progress| ==> Prefilled(tr, tr', AsPrompts(prompts), i)
    ensures TotalOwed(job, tr') <= TotalOwed(job, tr)
    ensures prompts != [] ==> TotalOwed(job, tr') < TotalOwed(job, tr)
  {
    forall i: nat | i < |tr.progress|
      ensures Owed(job.out)(i, tr'.progress[i]) <= Owed(job.out)(i, tr.progress[i])
    {
      assert Prefilled(tr, tr', AsPrompts(prompts), i);
    }
    if prompts != [] {
      var i := prompts[0].id;
      assert Ids(AsPrompts(prompts))[0] == i;
      assert Prefilled(tr, tr', AsPrompts(prompts), i);
      assert Owed(job.out)(i, tr'.progress[i]) < Owed(job.out)(i, tr.progress[i]);
    }
    SumReqLess(Owed(job.out), tr.progress, tr'.progress);
  }

  lemma {:induction false} DecodeOwes(job: Job, tr: Trace, tr': Trace, run: seq<Req>, k: nat)
    requires |tr.progress| == |tr'.progress| == |job.out| && run != [] && run[0].id < |tr.progress| && k >= 1
    requires forall i: nat :: i < |tr.progress| ==> Decoded(tr, tr', run, k, i)
    ensures TotalOwed(job, tr') < TotalOwed(job, tr)
  {
    forall i: nat | i < |tr.progress|
      ensures Owed(job.out)(i, tr'.progress[i]) <= Owed(job.out)(i, tr.progress[i])
    {
      assert Decoded(tr, tr', run, k, i);
    }
    var i := run[0].id;
    assert Present(run, i);
    assert Decoded(tr, tr', run, k, i);
    assert Owed(job.out)(i, tr'.progress[i]) < Owed(job.out)(i, tr.progress[i]);
    SumReqLess(Owed(job.out), tr.progress, tr'.progress);
  }

  // ----- the steps keep the invariant

  /** The admitted prompts always pack into prefill batches. */
  lemma {:induction false} PromptsPack(job: Job, st: SimState, received: nat, fifo: bool)
    requires StateInv(job, st, received, fifo) && AllServable(job)
    ensures var prompts := Admitting(job.lim, st).prompts;
            var p := Pack(AsPrompts(prompts), job.lim.maxTokens);
            && p.Batches? && PackedAs(job, prompts, p.batches)
            && InRange(Ids(AsPrompts(prompts)), |st.tr.progress|)
  {
    AdmitKeeps(job, st.run, st.wait, received, DoneOf(st.tr.progress), fifo);
    var a := Admitting(job.lim, st);
    assert Admitted(job, st.run, st.wait, received, DoneOf(st.tr.progress), fifo, a);
    WaitingReady(job, st.tr, st.run, a.prompts, a.wait, received, fifo);
    PackSound(AsPrompts(a.prompts), job.lim.maxTokens);
  }

  /** Admission and prefill: nothing more could be admitted, and if nothing runs nothing waits. */
  lemma {:induction false} PrefillingKeeps(job: Job, st: SimState, received: nat, fifo: bool)
    requires StateInv(job, st, received, fifo) && AllServable(job)
    ensures CanPrefill(job.lim, st)
    ensures var st' := Prefilling(job.lim, st);
            && StateInv(job, st', received, fifo)
            && (st'.run == [] ==> st'.wait == [])
            && TotalOwed(job, st'.tr) <= TotalOwed(job, st.tr)
            && (Admitting(job.lim, st).prompts != [] ==> TotalOwed(job, st'.tr) < TotalOwed(job, st.tr))
  {
    var a := Admitting(job.lim, st);
    PromptsPack(job, st, received, fifo);
    var bs := Pack(AsPrompts(a.prompts), job.lim.maxTokens).batches;
    AdmitPrefillKeeps(job, st.tr, st.run, st.wait, received, fifo, bs);
    if a.run == [] && a.wait != [] {
      HeadAdmitted(job, a.wait, received, DoneOf(PrefillAll(st.tr, bs).progress), fifo);
    }
    PrefillOwes(job, st.tr, PrefillAll(st.tr, bs), a.prompts);
  }

  /** Preemption leaves a table that can take the jump, and the jump takes at least one step. */
  lemma {:induction false} PreemptingKeeps(job: Job, st: SimState, received: nat, fifo: bool)
    requires StateInv(job, st, received, fifo) && AllServable(job) && st.run != []
    ensures var st' := Preempting(job.lim, st);
            && st'.run != [] && st'.run + st'.wait == st.run + st.wait
            && Consistent(job, st'.tr, st'.run, st'.wait, received, fifo)
            && CanDecode(st')
            && 1 <= Steps(job.lim, st') <= MinRem(st'.run)
            && forall n :: n <= Steps(job.lim, st') ==> Blocks(st'.run, n, job.lim.blockSize) <= job.lim.maxBlocks
  {
    KillKeepsRoom(job, st.run, st.wait, received, DoneOf(st.tr.progress), fifo);
    var st' := Preempting(job.lim, st);
    RunReady(job, st'.tr, st'.run, st'.wait, received, fifo);
    JumpIsStepping(st'.run, job.lim);
  }

  /** Decode steps that fit, followed by compaction. */
  lemma {:induction false} DecodingKeeps(job: Job, st: SimState, k: nat, received: nat, fifo: bool)
    requires Consistent(job, st.tr, st.run, st.wait, received, fifo) && CanDecode(st)
    requires 1 <= k <= MinRem(st.run) && Blocks(st.run, k, job.lim.blockSize) <= job.lim.maxBlocks
    ensures var st' := Decoding(st, k);
            StateInv(job, st', received, fifo) && TotalOwed(job, st'.tr) < TotalOwed(job, st.tr)
  {
    DecodeRoundKeeps(job, st.tr, st.run, st.wait, received, fifo, k);
    DecodeOwes(job, st.tr, Decode(st.tr, st.run, k), st.run, k);
  }

  lemma {:induction false} PrefillingResumes(job: Job, st: SimState, received: nat, fifo: bool)
    requires StateInv(job, st, received, fifo) && AllServable(job) && ResumeInv(st.tr, st.run)
    ensures CanPrefill(job.lim, st)
    ensures ResumeInv(Prefilling(job.lim, st).tr, Prefilling(job.lim, st).run)
  {
    PromptsPack(job, st, received, fifo);
    AdmitResumes(job, st.tr, st.run, st.wait, received, fifo,
                 Pack(AsPrompts(Admitting(job.lim, st).prompts), job.lim.maxTokens).batches);
  }

  lemma {:induction false} DecodingResumes(job: Job, st: SimState, k: nat, received: nat, fifo: bool)
    requires Consistent(job, st.tr, st.run, st.wait, received, fifo) && CanDecode(st) && k >= 1
    requires ResumeInv(st.tr, st.run)
    ensures ResumeInv(Decoding(st, k).tr, Decoding(st, k).run)
  {
    DecodeResumes(job, st.tr, st.run, st.wait, received, fifo, k);
  }

  // ----- the jump refines stepping

  /** Decode one token at a time, recording each step, until some request is done or one more
      step would not fit the cache. */
  function DecodeByOne(lim: Limits, run: seq<Req>, tr: Trace): (seq<Req>, Trace)
    requires lim.blockSize >= 1 && run != [] && InRange(Ids(AsPrompts(run)), |tr.progress|)
    decreases if MinRem(run) >= 0 then MinRem(run) else 0
  {
    if MinRem(run) <= 0 || Blocks(run, 1, lim.blockSize) > lim.maxBlocks then (run, tr)
    else
      MinRemAdvance(run, 1);
      assert Ids(AsPrompts(Advance(run, 1))) == Ids(AsPrompts(run));
      DecodeByOne(lim, Advance(run, 1), Decode(tr, run, 1))
  }

  lemma {:induction false} SteppingFrom(lim: Limits, run: seq<Req>, tr: Trace, j: nat, k: nat)
    requires lim.blockSize >= 1 && run != [] && 1 <= j <= k <= MinRem(run)
    requires InRange(Ids(AsPrompts(run)), |tr.progress|) && Distinct(Ids(AsPrompts(run)))
    requires Blocks(run, k, lim.blockSize) <= lim.maxBlocks
    requires k == MinRem(run) || Blocks(run, k + 1, lim.blockSize) > lim.maxBlocks
    ensures Ids(AsPrompts(Advance(run, j))) == Ids(AsPrompts(run))
    ensures DecodeByOne(lim, Advance(run, j), Decode(tr, run, j)) == (Advance(run, k), Decode(tr, run, k))
    decreases k - j
  {
    DecodeUnrolls(tr, run, j);
    MinRemAdvance(run, j);
    BlocksAdvance(run, j, 1, lim.blockSize);
    if j < k {
      BlocksMono(run, j + 1, k, lim.blockSize);
      assert Advance(Advance(run, j), 1) == Advance(run, j + 1);
      SteppingFrom(lim, run, tr, j + 1, k);
    }
  }

  /** Jumping and logging in one go gives the table, the ranges and the logs of decoding one token
      at a time until a request finishes or the cache would overflow. */
  lemma {:induction false} JumpRefinesStepping(lim: Limits, run: seq<Req>, tr: Trace)
    requires lim.blockSize >= 1 && run != [] && MinRem(run) >= 1
    requires InRange(Ids(AsPrompts(run)), |tr.progress|) && Distinct(Ids(AsPrompts(run)))
    requires Blocks(run, 1, lim.blockSize) <= lim.maxBlocks
    ensures var k := IterNum(run, Blocks(run, 0, lim.blockSize), lim);
            k >= 1 && DecodeByOne(lim, run, tr) == (Advance(run, k), Decode(tr, run, k))
  {
    BlocksMono(run, 0, 1, lim.blockSize);
    JumpIsStepping(run, lim);
    JumpExact(run, lim);
    var k := IterNum(run, Blocks(run, 0, lim.blockSize), lim);
    SteppingFrom(lim, run, tr, 1, k);
  }
}
