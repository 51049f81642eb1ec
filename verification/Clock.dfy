/** The simulated clock: latencies of the logged iterations and who may take part in them. */
module Clock {
  import opened Lists
  import opened Requests
  import opened Ranges
  import opened Packing
  import opened Traces
  import opened TraceInvariant
  import opened TraceSteps
  import opened Queues
  import opened Rounds
  import opened Simulation

  /** Predicted latency of a prefill and of a decode step. */
  datatype Costs = Costs(prefill: (PrefillLog, ValidLog) -> real, decode: DecodeLog -> real)

  ghost predicate NonNegativeCosts(c: Costs) {
    && (forall p, v :: c.prefill(p, v) >= 0.0)
    && (forall d :: c.decode(d) >= 0.0)
  }

  function PrefillLatencies(ps: seq<PrefillLog>, vs: seq<ValidLog>, c: Costs): (l: seq<real>)
    requires |ps| == |vs|
    ensures |l| == |ps|
  {
    seq(|ps|, i requires 0 <= i < |ps| => c.prefill(ps[i], vs[i]))
  }

  function DecodeLatencies(ds: seq<DecodeLog>, c: Costs): (l: seq<real>)
    ensures |l| == |ds|
  {
    seq(|ds|, i requires 0 <= i < |ds| => c.decode(ds[i]))
  }

  /** Running totals of the latencies, counted from `time`. */
  function CumFrom(time: real, lats: seq<real>): (c: seq<real>)
    ensures |c| == |lats|
    decreases |lats|
  {
    if lats == [] then []
    else CumFrom(time, lats[..|lats| - 1]) + [LastOr(CumFrom(time, lats[..|lats| - 1]), time) + lats[|lats| - 1]]
  }

  function LastOr(s: seq<real>, default: real): real {
    if s == [] then default else s[|s| - 1]
  }

  /** The latency of every iteration, in order. */
  function Latencies(tr: Trace, c: Costs): seq<real> {
    StepLatencies(tr.steps, tr.prefills, tr.valids, tr.decodes, c)
  }

  function StepLatencies(
      steps: seq<bool>, ps: seq<PrefillLog>, vs: seq<ValidLog>, ds: seq<DecodeLog>, c: Costs): seq<real>
  {
    if steps == [] then []
    else if steps[|steps| - 1] then
      if ps == [] || vs == [] then []
      else
        StepLatencies(steps[..|steps| - 1], ps[..|ps| - 1], vs[..|vs| - 1], ds, c)
        + [c.prefill(ps[|ps| - 1], vs[|vs| - 1])]
    else
      if ds == [] then []
      else StepLatencies(steps[..|steps| - 1], ps, vs, ds[..|ds| - 1], c) + [c.decode(ds[|ds| - 1])]
  }

  lemma {:induction false} LatenciesNonNegative(
      steps: seq<bool>, ps: seq<PrefillLog>, vs: seq<ValidLog>, ds: seq<DecodeLog>, c: Costs)
    requires NonNegativeCosts(c)
    ensures forall t :: 0 <= t < |StepLatencies(steps, ps, vs, ds, c)| ==> StepLatencies(steps, ps, vs, ds, c)[t] >= 0.0
  {
    if steps != [] {
      var n := |steps| - 1;
      if steps[n] && ps != [] && vs != [] {
        LatenciesNonNegative(steps[..n], ps[..|ps| - 1], vs[..|vs| - 1], ds, c);
      } else if !steps[n] && ds != [] {
        LatenciesNonNegative(steps[..n], ps, vs, ds[..|ds| - 1], c);
      }
    }
  }

  // ----- the invariant

  /** Iteration t starts once the previous one has ended and everyone in it has arrived. */
  ghost predicate StartsLegally(tr: Trace, lats: seq<real>, arrive: seq<real>, cum: seq<real>, t: nat)
    requires t < |cum| == |lats| && |tr.progress| == |arrive|
  {
    && cum[t] - lats[t] >= (if t == 0 then 0.0 else cum[t - 1])
    && forall i :: 0 <= i < |arrive| && Attends(tr.progress[i], t) ==> arrive[i] <= cum[t] - lats[t]
  }

  /** The clock readings account for every iteration, in order. */
  ghost predicate Causal(tr: Trace, c: Costs, arrive: seq<real>, cum: seq<real>) {
    && |tr.progress| == |arrive|
    && |cum| == |tr.steps| == |Latencies(tr, c)|
    && forall t: nat :: t < |cum| ==> StartsLegally(tr, Latencies(tr, c), arrive, cum, t)
  }

  /** tr' goes on from tr by iterations of the given latencies, leaving the past alone. */
  ghost predicate GoesOn(tr: Trace, tr': Trace, c: Costs, lats: seq<real>) {
    && |tr.progress| == |tr'.progress|
    && |tr'.steps| == |tr.steps| + |lats|
    && Latencies(tr', c) == Latencies(tr, c) + lats
    && forall i, t :: 0 <= i < |tr.progress| && t < |tr.steps| ==>
         (Attends(tr'.progress[i], t) <==> Attends(tr.progress[i], t))
  }

  lemma {:induction false} GoesOnTwice(a: Trace, b: Trace, d: Trace, c: Costs, l: seq<real>, m: seq<real>)
    requires GoesOn(a, b, c, l) && GoesOn(b, d, c, m)
    ensures GoesOn(a, d, c, l + m)
  {
  }

  lemma {:induction false} OneMoreKeepsPast(job: Job, tr: Trace, batch: seq<Prompt>, tr': Trace)
    requires OneMore(job, tr, batch, tr')
    ensures forall i, t :: 0 <= i < |tr.progress| && t < |tr.steps| ==>
              (Attends(tr'.progress[i], t) <==> Attends(tr.progress[i], t))
  {
    forall i, t | 0 <= i < |tr.progress| && t < |tr.steps|
      ensures Attends(tr'.progress[i], t) <==> Attends(tr.progress[i], t)
    {
      RequestStep(job, tr, batch, tr', i);
    }
  }

  /** New prefill entries since tr. */
  function NewPrefillLatencies(tr: Trace, tr': Trace, c: Costs): seq<real>
    requires |tr.prefills| == |tr.valids| <= |tr'.prefills| == |tr'.valids|
  {
    PrefillLatencies(tr'.prefills[|tr.prefills|..], tr'.valids[|tr.valids|..], c)
  }

  lemma {:induction false} PrefillGoesOn(job: Job, tr: Trace, batch: seq<Prompt>, c: Costs)
    requires batch != [] && InRange(Ids(batch), |tr.progress|) && OneMore(job, tr, batch, Prefill(tr, batch))
    ensures GoesOn(tr, Prefill(tr, batch), c, [c.prefill(PrefillLogOf(batch), ValidLogOf(batch, tr.progress))])
  {
    OneMoreKeepsPast(job, tr, batch, Prefill(tr, batch));
    assert (tr.steps + [true])[..|tr.steps|] == tr.steps;
    assert (tr.prefills + [PrefillLogOf(batch)])[..|tr.prefills|] == tr.prefills;
    assert (tr.valids + [ValidLogOf(batch, tr.progress)])[..|tr.valids|] == tr.valids;
  }

  lemma {:induction false} NewLatencyFirst(tr: Trace, batch: seq<Prompt>, tr': Trace, c: Costs)
    requires batch != [] && InRange(Ids(batch), |tr.progress|)
    requires |tr.prefills| == |tr.valids| && |tr'.prefills| == |tr'.valids|
    requires Prefill(tr, batch).prefills <= tr'.prefills && Prefill(tr, batch).valids <= tr'.valids
    ensures tr.prefills <= tr'.prefills && tr.valids <= tr'.valids
    ensures [c.prefill(PrefillLogOf(batch), ValidLogOf(batch, tr.progress))]
            + NewPrefillLatencies(Prefill(tr, batch), tr', c)
            == NewPrefillLatencies(tr, tr', c)
  {
    var tr1, n := Prefill(tr, batch), |tr.prefills|;
    assert tr'.prefills[n] == tr1.prefills[n] && tr'.valids[n] == tr1.valids[n];
    assert tr'.prefills[n..] == [tr'.prefills[n]] + tr'.prefills[n + 1..];
    assert tr'.valids[n..] == [tr'.valids[n]] + tr'.valids[n + 1..];
  }

  /** The trace goes on from tr by its new prefill entries. */
  ghost predicate PrefillsOn(tr: Trace, tr': Trace, c: Costs, n: nat) {
    && |tr.prefills| == |tr.valids| <= |tr'.prefills| == |tr'.valids|
    && tr.prefills <= tr'.prefills && tr.valids <= tr'.valids
    && GoesOn(tr, tr', c, NewPrefillLatencies(tr, tr', c))
    && |NewPrefillLatencies(tr, tr', c)| == n
  }

  lemma {:induction false} PrefillAllGoesOn(job: Job, tr: Trace, batches: seq<seq<Prompt>>, c: Costs)
    requires job.Valid() && TraceInv(job, tr) && BatchesFor(batches, |tr.progress|)
    requires PromptsReady(job, tr, Flatten(batches))
    ensures PrefillsOn(tr, PrefillAll(tr, batches), c, |batches|)
    decreases |batches|
  {
    if batches == [] {
      assert NewPrefillLatencies(tr, tr, c) == [];
    } else {
      var batch, others := batches[0], Flatten(batches[1..]);
      BatchReady(job, tr, batch, others);
      PrefillKeeps(job, tr, batch);
      var tr1 := Prefill(tr, batch);
      OthersStillReady(job, tr, batch, others, tr1);
      PrefillAllGoesOn(job, tr1, batches[1..], c);
      PrefillGoesOn(job, tr, batch, c);
      PrefillsOnFirst(tr, batch, PrefillAll(tr1, batches[1..]), c, |batches| - 1);
    }
  }

  lemma {:induction false} PrefillsOnFirst(tr: Trace, batch: seq<Prompt>, tr': Trace, c: Costs, n: nat)
    requires batch != [] && InRange(Ids(batch), |tr.progress|) && |tr.prefills| == |tr.valids|
    requires PrefillsOn(Prefill(tr, batch), tr', c, n)
    requires GoesOn(tr, Prefill(tr, batch), c, [c.prefill(PrefillLogOf(batch), ValidLogOf(batch, tr.progress))])
    ensures PrefillsOn(tr, tr', c, n + 1)
  {
    var tr1 := Prefill(tr, batch);
    GoesOnTwice(tr, tr1, tr', c, [c.prefill(PrefillLogOf(batch), ValidLogOf(batch, tr.progress))],
                NewPrefillLatencies(tr1, tr', c));
    NewLatencyFirst(tr, batch, tr', c);
  }

  lemma {:induction false} DecodeLats(
      steps: seq<bool>, ps: seq<PrefillLog>, vs: seq<ValidLog>, ds: seq<DecodeLog>, c: Costs, more: seq<DecodeLog>)
    ensures StepLatencies(steps + seq(|more|, _ => false), ps, vs, ds + more, c)
            == StepLatencies(steps, ps, vs, ds, c) + DecodeLatencies(more, c)
    decreases |more|
  {
    var all := steps + seq(|more|, _ => false);
    if more == [] {
      assert all == steps && ds + more == ds;
    } else {
      var n := |more| - 1;
      DecodeLats(steps, ps, vs, ds, c, more[..n]);
      assert all[..|all| - 1] == steps + seq(n, _ => false);
      assert (ds + more)[..|ds| + n] == ds + more[..n];
      assert DecodeLatencies(more, c) == DecodeLatencies(more[..n], c) + [c.decode(more[n])];
    }
  }

  lemma {:induction false} DecodeGoesOn(job: Job, tr: Trace, run: seq<Req>, k: nat, c: Costs)
    requires RangesCanonical(tr) && TableReady(job, tr, run) && k >= 1
    ensures GoesOn(tr, Decode(tr, run, k), c, DecodeLatencies(Decode(tr, run, k).decodes[|tr.decodes|..], c))
    ensures |Decode(tr, run, k).decodes| == |tr.decodes| + k
  {
    var tr', ids, n := Decode(tr, run, k), Ids(AsPrompts(run)), |tr.steps|;
    var more := seq(k, i => DecodeLogOf(run, i));
    assert tr'.decodes[|tr.decodes|..] == more;
    DecodeLats(tr.steps, tr.prefills, tr.valids, tr.decodes, c, more);
    forall i, t | 0 <= i < |tr.progress| && t < n
      ensures Attends(tr'.progress[i], t) <==> Attends(tr.progress[i], t)
    {
      StoreAllAt(tr.progress, ids, n, n + k - 1, i);
      AddRangeFacts(tr.progress[i], n, n + k - 1);
    }
  }

  lemma {:induction false} CumFromAt(time: real, lats: seq<real>, j: nat)
    requires j < |lats|
    ensures CumFrom(time, lats)[j] - lats[j] == if j == 0 then time else CumFrom(time, lats)[j - 1]
    ensures (forall i :: 0 <= i < |lats| ==> lats[i] >= 0.0) ==> CumFrom(time, lats)[j] >= time + lats[j]
    decreases |lats|
  {
    var n := |lats| - 1;
    var front := CumFrom(time, lats[..n]);
    if j < n {
      CumFromAt(time, lats[..n], j);
    } else if n > 0 {
      CumFromAt(time, lats[..n], n - 1);
    }
  }

  /** Going on from a moment at which every participant has arrived keeps the clock legal. */
  lemma {:induction false} CausalGoesOn(
      tr: Trace, tr': Trace, c: Costs, arrive: seq<real>, cum: seq<real>, time: real, lats: seq<real>)
    requires Causal(tr, c, arrive, cum) && GoesOn(tr, tr', c, lats)
    requires forall i :: 0 <= i < |lats| ==> lats[i] >= 0.0
    requires time >= LastOr(cum, 0.0)
    requires forall i, t :: 0 <= i < |arrive| && |tr.steps| <= t && Attends(tr'.progress[i], t) ==> arrive[i] <= time
    ensures Causal(tr', c, arrive, cum + CumFrom(time, lats))
    ensures LastOr(cum + CumFrom(time, lats), 0.0) >= LastOr(cum, 0.0)
  {
    var n, cum', all := |cum|, cum + CumFrom(time, lats), Latencies(tr', c);
    forall t: nat | t < |cum'| ensures StartsLegally(tr', all, arrive, cum', t) {
      if t < n {
        assert StartsLegally(tr, Latencies(tr, c), arrive, cum, t);
        assert all[t] == Latencies(tr, c)[t];
      } else {
        assert all[t] == lats[t - n];
        CumFromAt(time, lats, t - n);
      }
    }
    if |lats| > 0 {
      CumFromAt(time, lats, |lats| - 1);
    }
  }

  /** Nobody who has not been received takes part. */
  lemma {:induction false} ParticipantsReceived(
      job: Job, st: SimState, received: nat, fifo: bool, arrive: seq<real>, time: real)
    requires StateInv(job, st, received, fifo) && |arrive| == |job.inp|
    requires forall i :: 0 <= i < received ==> arrive[i] <= time
    ensures forall i, t :: 0 <= i < |arrive| && Attends(st.tr.progress[i], t) ==> arrive[i] <= time
  {
    forall i, t | 0 <= i < |arrive| && Attends(st.tr.progress[i], t) ensures arrive[i] <= time {
      assert CoveredAt(job, st.run + st.wait, received, DoneOf(st.tr.progress), i);
      CanonicalFacts(st.tr.progress[i], |st.tr.steps|);
    }
  }
}
