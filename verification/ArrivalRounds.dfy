/** A round of the simulator with arrivals as a function of the state, and what it keeps: requests are
    received while others run, every check_gap steps or whenever the engine is idle, and the clock
    advances by the predicted latencies. */
module ArrivalRounds {
  import opened Requests
  import opened DecodeJump
  import opened Packing
  import opened Traces
  import opened TraceInvariant
  import opened Queues
  import opened Rounds
  import opened Resume
  import opened Simulation
  import opened ArrivalCheck
  import opened Clock

  /** The scheduler state with the control variables of the loop. */
  datatype Control = Control(
    st: SimState, received: nat, needQuery: bool, mustRecord: bool, time: real, cum: seq<real>)

  /** The fixed inputs of a simulation. */
  datatype Setup = Setup(job: Job, arrive: seq<real>, gap: int, sortInput: bool, costs: Costs) {
    ghost predicate Valid() {
      AllServableJob(job) && |arrive| == |job.inp| && gap >= 1 && NonNegativeCosts(costs)
    }
  }

  ghost predicate ControlInv(u: Setup, x: Control) {
    && u.Valid()
    && StateInv(u.job, x.st, x.received, false)
    && ResumeInv(x.st.tr, x.st.run)
    && Causal(x.st.tr, u.costs, u.arrive, x.cum)
    && x.time == LastOr(x.cum, 0.0)
    && (forall i :: 0 <= i < x.received ==> u.arrive[i] <= x.time)
    && (x.needQuery ==> x.st.wait == [])
  }

  ghost predicate Pending(u: Setup, x: Control) {
    x.st.run != [] || x.st.wait != [] || x.received < |u.job.inp|
  }

  // ----- first half of a round: check, admit, prefill

  predicate MustCheck(u: Setup, x: Control)
    requires u.gap >= 1
  {
    (x.st.run == [] && x.st.wait == []) || (x.needQuery && |x.st.tr.steps| % u.gap == 0)
  }

  ghost function AfterCheck(u: Setup, x: Control): Control
    requires u.Valid() && x.received <= |u.arrive|
  {
    if !MustCheck(u, x) then x
    else
      var busy, n := x.st.run != [], x.received;
      CheckFacts(u.arrive, n, busy, x.time);
      var e := CheckEnd(u.arrive, n, busy, x.time);
      x.(st := x.st.(wait := Arranged(u.sortInput, NewReqs(u.job, n, e))),
         received := e,
         time := CheckTime(u.arrive, n, busy, x.time))
  }

  /** Ask for requests again: some are missing, none is waiting, and there is room. */
  predicate ShouldQuery(lim: Limits, st: SimState, received: nat, total: nat)
    requires lim.blockSize >= 1
  {
    && received < total && st.wait == []
    && EnoughCache(lim, Blocks(st.run, 0, lim.blockSize), 1) && |st.run| < lim.maxSeqs
  }

  ghost predicate LogsGrow(tr: Trace, tr': Trace) {
    |tr.prefills| == |tr.valids| <= |tr'.prefills| == |tr'.valids|
  }

  ghost function AfterPrefill(u: Setup, x: Control): Control
    requires u.job.lim.blockSize >= 1 && CanPrefill(u.job.lim, x.st)
    requires LogsGrow(x.st.tr, Prefilling(u.job.lim, x.st).tr)
  {
    var st' := Prefilling(u.job.lim, x.st);
    var cum' := x.cum + CumFrom(x.time, NewPrefillLatencies(x.st.tr, st'.tr, u.costs));
    Control(st', x.received, ShouldQuery(u.job.lim, st', x.received, |u.job.inp|),
            x.mustRecord && Admitting(u.job.lim, x.st).prompts == [], LastOr(cum', x.time), cum')
  }

  lemma {:induction false} CheckKeeps(u: Setup, x: Control)
    requires ControlInv(u, x) && Pending(u, x)
    ensures x.received <= |u.arrive|
    ensures var y := AfterCheck(u, x);
            && StateInv(u.job, y.st, y.received, false)
            && y.st.tr == x.st.tr && y.st.run == x.st.run && y.cum == x.cum && y.mustRecord == x.mustRecord
            && (forall i :: 0 <= i < y.received ==> u.arrive[i] <= y.time)
            && y.time >= x.time
            && (y.time > x.time || x.st.run == [] ==> y.st.run == [] && y.st.wait != [])
  {
    if MustCheck(u, x) {
      var busy, n := x.st.run != [], x.received;
      CheckFacts(u.arrive, n, busy, x.time);
      ReceiveKeeps(u.job, x.st, u.sortInput, n, CheckEnd(u.arrive, n, busy, x.time));
    }
  }

  /** Prefill latencies of a legal state are those of its trace going on. */
  lemma {:induction false} PrefillingGoesOn(u: Setup, st: SimState, received: nat)
    requires u.Valid() && StateInv(u.job, st, received, false)
    ensures CanPrefill(u.job.lim, st)
    ensures var st' := Prefilling(u.job.lim, st);
            && LogsGrow(st.tr, st'.tr)
            && PrefillsOn(st.tr, st'.tr, u.costs, |NewPrefillLatencies(st.tr, st'.tr, u.costs)|)
            && (Admitting(u.job.lim, st).prompts == [] <==> NewPrefillLatencies(st.tr, st'.tr, u.costs) == [])
  {
    var job := u.job;
    PrefillingKeeps(job, st, received, false);
    PromptsPack(job, st, received, false);
    var a := Admitting(job.lim, st);
    var bs := Pack(AsPrompts(a.prompts), job.lim.maxTokens).batches;
    AdmitKeeps(job, st.run, st.wait, received, DoneOf(st.tr.progress), false);
    assert Admitted(job, st.run, st.wait, received, DoneOf(st.tr.progress), false, a);
    WaitingReady(job, st.tr, st.run, a.prompts, a.wait, received, false);
    PrefillAllGoesOn(job, st.tr, bs, u.costs);
    assert Flatten(bs) == AsPrompts(a.prompts);
    if bs != [] {
      assert Fits(bs[0], job.lim.maxTokens);
    }
  }

  /** The clock after the prefills of a legal state. */
  lemma {:induction false} PrefillClock(u: Setup, y: Control)
    requires u.Valid() && StateInv(u.job, y.st, y.received, false)
    requires Causal(y.st.tr, u.costs, u.arrive, y.cum) && y.time >= LastOr(y.cum, 0.0)
    requires forall i :: 0 <= i < y.received ==> u.arrive[i] <= y.time
    ensures CanPrefill(u.job.lim, y.st) && LogsGrow(y.st.tr, Prefilling(u.job.lim, y.st).tr)
    ensures var z := AfterPrefill(u, y);
            && Causal(z.st.tr, u.costs, u.arrive, z.cum)
            && (Admitting(u.job.lim, y.st).prompts != [] ==> z.time == LastOr(z.cum, 0.0) >= y.time)
            && (Admitting(u.job.lim, y.st).prompts == [] ==> z.cum == y.cum && z.time == LastOr(y.cum, y.time))
  {
    PrefillingKeeps(u.job, y.st, y.received, false);
    PrefillingGoesOn(u, y.st, y.received);
    var z := AfterPrefill(u, y);
    var lats := NewPrefillLatencies(y.st.tr, z.st.tr, u.costs);
    ParticipantsReceived(u.job, z.st, z.received, false, u.arrive, y.time);
    CausalGoesOn(y.st.tr, z.st.tr, u.costs, u.arrive, y.cum, y.time, lats);
    if lats == [] {
      assert z.cum == y.cum;
    } else {
      CumFromAt(y.time, lats, |lats| - 1);
      assert LastOr(z.cum, y.time) == CumFrom(y.time, lats)[|lats| - 1];
    }
  }

  /** An idle engine with somebody waiting admits somebody; and if the table ends up empty after a
      round that admitted nobody, it was empty before. */
  lemma {:induction false} AdmitsSomeone(u: Setup, st: SimState, received: nat)
    requires u.Valid() && StateInv(u.job, st, received, false)
    ensures st.run == [] && st.wait != [] ==> Admitting(u.job.lim, st).prompts != []
    ensures Admitting(u.job.lim, st).prompts == [] ==> Admitting(u.job.lim, st).run == st.run
  {
    if st.run == [] && st.wait != [] {
      HeadAdmitted(u.job, st.wait, received, DoneOf(st.tr.progress), false);
    }
  }

  /** The first half of a round keeps the invariant; an idle engine always admits someone. */
  lemma {:induction false} FirstHalfKeeps(u: Setup, x: Control)
    requires ControlInv(u, x) && Pending(u, x)
    ensures x.received <= |u.arrive| && CanPrefill(u.job.lim, AfterCheck(u, x).st)
    ensures var y := AfterCheck(u, x);
            LogsGrow(y.st.tr, Prefilling(u.job.lim, y.st).tr)
    ensures var y := AfterCheck(u, x);
            var z := AfterPrefill(u, y);
            && ControlInv(u, z)
            && z.time >= x.time
            && (z.st.run == [] ==> z.st.wait == [])
            && TotalOwed(u.job, z.st.tr) <= TotalOwed(u.job, x.st.tr)
            && (z.st.run == [] || z.mustRecord != x.mustRecord ==>
                TotalOwed(u.job, z.st.tr) < TotalOwed(u.job, x.st.tr))
  {
    CheckKeeps(u, x);
    var y := AfterCheck(u, x);
    PrefillingKeeps(u.job, y.st, y.received, false);
    PrefillingResumes(u.job, y.st, y.received, false);
    PrefillClock(u, y);
    AdmitsSomeone(u, y.st, y.received);
  }

  // ----- second half of a round: preempt, decode, compact

  /** Steps up to the next multiple of the gap, one whole gap away if one must be recorded. */
  function UpToCheck(iter: nat, must: bool, gap: int): int
    requires gap >= 1
  {
    (iter + (if must then 1 else 0) + gap - 1) / gap * gap - iter
  }

  lemma {:induction false} UpToCheckFacts(iter: nat, must: bool, gap: int)
    requires gap >= 1
    ensures 0 <= UpToCheck(iter, must, gap) <= gap
    ensures UpToCheck(iter, must, gap) == 0 <==> !must && iter % gap == 0
    ensures (iter + UpToCheck(iter, must, gap)) % gap == 0
  {
    var m := iter + (if must then 1 else 0);
    var q, r := (m + gap - 1) / gap, (m + gap - 1) % gap;
    assert q * gap + r == m + gap - 1;
    DivUnique(q * gap, q, 0, gap);
    if !must && iter % gap == 0 {
      var p := iter / gap;
      assert p * gap == iter;
      DivUnique(iter + gap - 1, p, gap - 1, gap);
    } else if !must && q * gap == iter {
      DivUnique(iter, q, 0, gap);
      assert false;
    }
  }

  /** How many steps to decode now, given the preempted state and whether arrivals are awaited. */
  function ClampedSteps(u: Setup, st: SimState, query: bool, must: bool): int
    requires u.job.lim.blockSize >= 1 && u.gap >= 1 && st.run != []
  {
    var k := Steps(u.job.lim, st);
    if !query then k
    else
      var g := UpToCheck(|st.tr.steps|, must, u.gap);
      if k <= g then k else g
  }

  ghost function AfterDecode(u: Setup, z: Control): Control
    requires u.job.lim.blockSize >= 1 && u.gap >= 1 && Preempting(u.job.lim, z.st).run != []
    requires CanDecode(Preempting(u.job.lim, z.st))
  {
    var p := Preempting(u.job.lim, z.st);
    var query := z.needQuery && p.wait == [];
    var k := ClampedSteps(u, p, query, z.mustRecord);
    if k <= 0 then z.(st := p, needQuery := query, mustRecord := true)
    else
      var st' := Decoding(p, k);
      var cum' := z.cum + CumFrom(z.time, DecodeLatencies(st'.tr.decodes[|p.tr.decodes|..], u.costs));
      Control(st', z.received, query, z.mustRecord && !query, LastOr(cum', z.time), cum')
  }

  lemma {:induction false} DecodingGoesOn(u: Setup, z: Control, p: SimState, k: nat)
    requires ControlInv(u, z) && z.st.tr == p.tr && k >= 1 && CanDecode(p)
    requires Consistent(u.job, p.tr, p.run, p.wait, z.received, false)
    requires StateInv(u.job, Decoding(p, k), z.received, false)
    ensures var st' := Decoding(p, k);
            && |p.tr.decodes| <= |st'.tr.decodes|
            && var cum' := z.cum + CumFrom(z.time, DecodeLatencies(st'.tr.decodes[|p.tr.decodes|..], u.costs));
               && Causal(st'.tr, u.costs, u.arrive, cum')
               && LastOr(cum', z.time) == LastOr(cum', 0.0) >= z.time
  {
    var st' := Decoding(p, k);
    RunReady(u.job, p.tr, p.run, p.wait, z.received, false);
    DecodeGoesOn(u.job, p.tr, p.run, k, u.costs);
    var lats := DecodeLatencies(st'.tr.decodes[|p.tr.decodes|..], u.costs);
    ParticipantsReceived(u.job, st', z.received, false, u.arrive, z.time);
    CausalGoesOn(p.tr, st'.tr, u.costs, u.arrive, z.cum, z.time, lats);
    CumFromAt(z.time, lats, |lats| - 1);
  }

  /** Decoding k steps of a preempted state. */
  lemma {:induction false} DecodeBranch(u: Setup, z: Control, p: SimState, k: nat, query: bool, must: bool)
    requires ControlInv(u, z) && z.st.tr == p.tr && CanDecode(p) && ResumeInv(p.tr, p.run)
    requires Consistent(u.job, p.tr, p.run, p.wait, z.received, false)
    requires 1 <= k <= MinRem(p.run) && Blocks(p.run, k, u.job.lim.blockSize) <= u.job.lim.maxBlocks
    requires query ==> p.wait == []
    ensures var st' := Decoding(p, k);
            && |p.tr.decodes| <= |st'.tr.decodes|
            && TotalOwed(u.job, st'.tr) < TotalOwed(u.job, p.tr)
            && var cum' := z.cum + CumFrom(z.time, DecodeLatencies(st'.tr.decodes[|p.tr.decodes|..], u.costs));
               && ControlInv(u, Control(st', z.received, query, must, LastOr(cum', z.time), cum'))
               && LastOr(cum', z.time) >= z.time
  {
    DecodingKeeps(u.job, p, k, z.received, false);
    DecodingResumes(u.job, p, k, z.received, false);
    DecodingGoesOn(u, z, p, k);
  }

  lemma {:induction false} SecondHalfKeeps(u: Setup, z: Control)
    requires ControlInv(u, z) && z.st.run != []
    ensures Preempting(u.job.lim, z.st).run != [] && CanDecode(Preempting(u.job.lim, z.st))
    ensures var w := AfterDecode(u, z);
            && ControlInv(u, w)
            && w.time >= z.time
            && (TotalOwed(u.job, w.st.tr) < TotalOwed(u.job, z.st.tr)
                || (w.st == z.st && w.mustRecord && !z.mustRecord))
  {
    var p := Preempting(u.job.lim, z.st);
    PreemptingKeeps(u.job, z.st, z.received, false);
    var query := z.needQuery && p.wait == [];
    UpToCheckFacts(|p.tr.steps|, z.mustRecord, u.gap);
    var k := ClampedSteps(u, p, query, z.mustRecord);
    if k <= 0 {
      assert p.run == z.st.run;
      assert p == z.st;
    } else {
      DecodeBranch(u, z, p, k, query, z.mustRecord && !query);
    }
  }

  // ----- a whole round

  /** What a round needs of the state it starts from. */
  ghost predicate CanRound(u: Setup, x: Control) {
    && u.Valid() && x.received <= |u.arrive|
    && (x.needQuery ==> x.st.wait == [])
    && var y := AfterCheck(u, x);
       && CanPrefill(u.job.lim, y.st) && LogsGrow(y.st.tr, Prefilling(u.job.lim, y.st).tr)
       && var z := AfterPrefill(u, y);
          z.st.run != [] ==> Preempting(u.job.lim, z.st).run != [] && CanDecode(Preempting(u.job.lim, z.st))
  }

  ghost function AfterRound(u: Setup, x: Control): Control
    requires CanRound(u, x)
  {
    var z := AfterPrefill(u, AfterCheck(u, x));
    if z.st.run == [] then z else AfterDecode(u, z)
  }

  /** Every round keeps the invariant and never turns the clock back, and the pair of tokens still
      to generate and the record flag decreases, even in a round that decodes nothing. */
  lemma {:induction false} RoundKeeps(u: Setup, x: Control)
    requires ControlInv(u, x) && Pending(u, x)
    ensures CanRound(u, x)
    ensures var x' := AfterRound(u, x);
            && ControlInv(u, x')
            && x'.time >= x.time
            && TotalOwed(u.job, x.st.tr) >= 0
            && (TotalOwed(u.job, x'.st.tr) < TotalOwed(u.job, x.st.tr)
                || (TotalOwed(u.job, x'.st.tr) == TotalOwed(u.job, x.st.tr) && x'.mustRecord && !x.mustRecord))
  {
    OwedNonNegative(u.job, x.st, x.received, false);
    FirstHalfKeeps(u, x);
    var z := AfterPrefill(u, AfterCheck(u, x));
    if z.st.run != [] {
      SecondHalfKeeps(u, z);
    }
  }
}
