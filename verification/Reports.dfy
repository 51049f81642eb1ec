/** What is read off a finished simulation: flattened ranges, finish times and useful work. */
module Reports {
  import opened Ranges
  import opened Traces
  import opened TraceInvariant
  import opened Simulation
  import opened Clock

  // ----- mask assignment

  /** a[mask] := onTrue; a[!mask] := onFalse. */
  function Scatter<T>(steps: seq<bool>, onTrue: seq<T>, onFalse: seq<T>): (s: seq<T>)
    requires |onTrue| == Rank(steps, |steps|) && |onFalse| == |steps| - Rank(steps, |steps|)
    ensures |s| == |steps|
  {
    seq(|steps|, t requires 0 <= t < |steps| =>
      RankMonotone(steps, t, |steps|);
      RankMonotone(steps, t + 1, |steps|);
      RankMonotone(steps, t, t + 1);
      if steps[t] then onTrue[Rank(steps, t)] else onFalse[t - Rank(steps, t)])
  }

  /** Scattering one more entry is appending it. */
  lemma {:induction false} ScatterLast<T>(steps: seq<bool>, onTrue: seq<T>, onFalse: seq<T>, step: bool, e: T)
    requires |onTrue| == Rank(steps, |steps|) && |onFalse| == |steps| - Rank(steps, |steps|)
    ensures Rank(steps + [step], |steps| + 1) == Rank(steps, |steps|) + (if step then 1 else 0)
    ensures Scatter(steps + [step], if step then onTrue + [e] else onTrue, if step then onFalse else onFalse + [e])
            == Scatter(steps, onTrue, onFalse) + [e]
  {
    var all, n := steps + [step], |steps|;
    RankPrefix(steps, all, n);
    var s := Scatter(all, if step then onTrue + [e] else onTrue, if step then onFalse else onFalse + [e]);
    forall t | 0 <= t < n ensures s[t] == Scatter(steps, onTrue, onFalse)[t] {
      RankPrefix(steps, all, t);
      RankMonotone(steps, t, n);
      RankMonotone(steps, t + 1, n);
      RankMonotone(steps, t, t + 1);
    }
  }

  function AsValid(ds: seq<DecodeLog>): (v: seq<ValidLog>)
    ensures |v| == |ds| && forall i :: 0 <= i < |v| ==> v[i] == ValidLog(ds[i].seqs, ds[i].tokens)
  {
    seq(|ds|, i requires 0 <= i < |ds| => ValidLog(ds[i].seqs, ds[i].tokens))
  }

  lemma {:induction false} MergedIsScattered(steps: seq<bool>, vs: seq<ValidLog>, ds: seq<DecodeLog>)
    requires |vs| == Rank(steps, |steps|) && |ds| == |steps| - Rank(steps, |steps|)
    ensures Interleave(steps, vs, ds) == Scatter(steps, vs, AsValid(ds))
  {
    if steps != [] {
      var n := |steps| - 1;
      var front := steps[..n];
      RankPrefix(front, steps, n);
      assert steps == front + [steps[n]];
      if steps[n] {
        MergedIsScattered(front, vs[..|vs| - 1], ds);
        ScatterLast(front, vs[..|vs| - 1], AsValid(ds), true, vs[|vs| - 1]);
        assert vs[..|vs| - 1] + [vs[|vs| - 1]] == vs;
      } else {
        var m := |ds| - 1;
        MergedIsScattered(front, vs, ds[..m]);
        ScatterLast(front, vs, AsValid(ds[..m]), false, AsValid(ds)[m]);
        assert AsValid(ds[..m]) + [AsValid(ds)[m]] == AsValid(ds);
      }
    }
  }

  // ----- useful work

  /** Total processed tokens and context of the given lengths, each counted with one output token. */
  function TokenTotal(lens: seq<int>): int {
    if lens == [] then 0 else TokenTotal(lens[..|lens| - 1]) + (lens[|lens| - 1] + 1 - 1)
  }

  function ContextTotal(lens: seq<int>): int {
    if lens == [] then 0
    else
      var l := lens[|lens| - 1];
      ContextTotal(lens[..|lens| - 1]) + (l + 1) * (l + 1 - 1) / 2
  }

  /** Lengths reached by the started requests. */
  function ReachedLens(inp: seq<int>, finished: seq<int>): (l: seq<int>)
    requires |inp| == |finished|
    ensures |l| == |inp|
  {
    seq(|inp|, i requires 0 <= i < |inp| => (inp[i] + finished[i] - 1) * (if finished[i] > 0 then 1 else 0))
  }

  function FinishedAt(progress: seq<seq<int>>, stop: int): (f: seq<int>)
    ensures |f| == |progress| && forall i :: 0 <= i < |f| ==> f[i] == FinishedBy(progress[i], stop)
  {
    seq(|progress|, i requires 0 <= i < |progress| => FinishedBy(progress[i], stop))
  }

  lemma {:induction false} TotalsAsSums(inp: seq<int>, progress: seq<seq<int>>, stop: int)
    requires |progress| <= |inp|
    ensures var lens := ReachedLens(inp[..|progress|], FinishedAt(progress, stop));
            && TokenTotal(lens) == SumReq(TokensAt(inp, stop), progress)
            && ContextTotal(lens) == SumReq(ContextAt(inp, stop), progress)
  {
    if progress != [] {
      var n := |progress| - 1;
      TotalsAsSums(inp, progress[..n], stop);
      var lens := ReachedLens(inp[..|progress|], FinishedAt(progress, stop));
      assert lens[..n] == ReachedLens(inp[..n], FinishedAt(progress[..n], stop));
      assert lens[n] == ValidLen(inp[n], FinishedBy(progress[n], stop));
    }
  }

  function CumSum(m: seq<int>, t: nat): int
    requires t <= |m|
  {
    if t == 0 then 0 else CumSum(m, t - 1) + m[t - 1]
  }

  function SeqsOf(v: seq<ValidLog>): (s: seq<int>)
    ensures |s| == |v|
  {
    seq(|v|, i requires 0 <= i < |v| => v[i].seqs)
  }

  function TokensOf(v: seq<ValidLog>): (s: seq<int>)
    ensures |s| == |v|
  {
    seq(|v|, i requires 0 <= i < |v| => v[i].tokens)
  }

  lemma {:induction false} CumSums(m: seq<ValidLog>, t: nat)
    requires t <= |m|
    ensures CumSum(SeqsOf(m), t) == CumSeqs(m, t) && CumSum(TokensOf(m), t) == CumTokens(m, t)
  {
    if t > 0 {
      CumSums(m, t - 1);
    }
  }

  /** The two computations of useful work agree at every iteration: the running totals of the logged
      steps, and the closed form in the lengths read off the ranges. Recomputation after preemption is
      counted by neither. */
  lemma {:induction false} UsefulWorkAgrees(job: Job, tr: Trace, stop: nat)
    requires job.lim.blockSize >= 1 && TraceInv(job, tr) && stop < |tr.steps|
    ensures var logged := Scatter(tr.steps, tr.valids, AsValid(tr.decodes));
            var lens := ReachedLens(job.inp, FinishedAt(tr.progress, stop));
            && CumSum(SeqsOf(logged), stop + 1) == TokenTotal(lens)
            && CumSum(TokensOf(logged), stop + 1) == ContextTotal(lens)
  {
    MergedIsScattered(tr.steps, tr.valids, tr.decodes);
    CumSums(Merged(tr), stop + 1);
    TotalsAsSums(job.inp, tr.progress, stop);
    assert job.inp[..|tr.progress|] == job.inp;
    assert stop + 1 - 1 == stop;
  }

  // ----- flattened ranges

  function Starts(r: seq<int>): (s: seq<int>)
    ensures |s| == |r| / 2
  {
    seq(|r| / 2, k requires 0 <= k < |r| / 2 => r[2 * k])
  }

  function Ends(r: seq<int>): (s: seq<int>)
    ensures |s| == |r| / 2
  {
    seq(|r| / 2, k requires 0 <= k < |r| / 2 => r[2 * k + 1])
  }

  function AllStarts(progress: seq<seq<int>>): seq<int> {
    if progress == [] then [] else AllStarts(progress[..|progress| - 1]) + Starts(progress[|progress| - 1])
  }

  function AllEnds(progress: seq<seq<int>>): seq<int> {
    if progress == [] then [] else AllEnds(progress[..|progress| - 1]) + Ends(progress[|progress| - 1])
  }

  /** Number of ranges of the first i requests. */
  function CumRanges(progress: seq<seq<int>>, i: nat): nat
    requires i <= |progress|
  {
    if i == 0 then 0 else CumRanges(progress, i - 1) + |progress[i - 1]| / 2
  }

  lemma {:induction false} CumRangesPrefix(progress: seq<seq<int>>, n: nat, i: nat)
    requires i <= n <= |progress|
    ensures CumRanges(progress[..n], i) == CumRanges(progress, i)
    ensures CumRanges(progress, i) <= CumRanges(progress, n)
    decreases n, i
  {
    if i > 0 {
      CumRangesPrefix(progress, n, i - 1);
    }
    if i < n {
      CumRangesPrefix(progress, n - 1, i);
    }
  }

  /** Request i's ranges sit between positions CumRanges(i) and CumRanges(i + 1). */
  lemma {:induction false} FlatSlices(progress: seq<seq<int>>, i: nat)
    requires i < |progress|
    ensures |AllStarts(progress)| == |AllEnds(progress)| == CumRanges(progress, |progress|)
    ensures CumRanges(progress, i) <= CumRanges(progress, i + 1) <= CumRanges(progress, |progress|)
    ensures AllStarts(progress)[CumRanges(progress, i)..CumRanges(progress, i + 1)] == Starts(progress[i])
    ensures AllEnds(progress)[CumRanges(progress, i)..CumRanges(progress, i + 1)] == Ends(progress[i])
    decreases |progress|
  {
    var n := |progress| - 1;
    var front := progress[..n];
    CumRangesPrefix(progress, n, n);
    CumRangesPrefix(progress, |progress|, i + 1);
    if n > 0 {
      FlatSlices(front, if i < n then i else 0);
    }
    if i < n {
      CumRangesPrefix(progress, n, i);
      CumRangesPrefix(progress, n, i + 1);
      assert front[i] == progress[i];
      SliceFront(AllStarts(front), Starts(progress[n]), CumRanges(progress, i), CumRanges(progress, i + 1));
      SliceFront(AllEnds(front), Ends(progress[n]), CumRanges(progress, i), CumRanges(progress, i + 1));
    } else {
      SliceBack(AllStarts(front), Starts(progress[n]));
      SliceBack(AllEnds(front), Ends(progress[n]));
    }
  }

  lemma {:induction false} SliceFront(a: seq<int>, b: seq<int>, lo: nat, hi: nat)
    requires lo <= hi <= |a|
    ensures (a + b)[lo..hi] == a[lo..hi]
  {
  }

  lemma {:induction false} SliceBack(a: seq<int>, b: seq<int>)
    ensures (a + b)[|a|..|a| + |b|] == b
  {
  }

  /** Iterations of each flattened range that are done at `stop`. */
  function RangeDone(starts: seq<int>, ends: seq<int>, stop: int): (d: seq<int>)
    requires |starts| == |ends|
    ensures |d| == |starts|
  {
    seq(|starts|, k requires 0 <= k < |starts| => DoneInRange(starts[k], ends[k], stop))
  }

  lemma {:induction false} CumSumSlice(m: seq<int>, i: nat, j: nat)
    requires i <= j <= |m|
    ensures CumSum(m, j) - CumSum(m, i) == CumSum(m[i..j], j - i)
    decreases j
  {
    if i < j {
      CumSumSlice(m, i, j - 1);
      assert m[i..j][..j - 1 - i] == m[i..j - 1];
      CumSumPrefix(m[i..j], j - 1 - i);
    }
  }

  lemma {:induction false} CumSumPrefix(m: seq<int>, n: nat)
    requires n <= |m|
    ensures CumSum(m, n) == CumSum(m[..n], n)
    decreases n
  {
    if n > 0 {
      CumSumPrefix(m, n - 1);
      CumSumPrefix(m[..n], n - 1);
      assert m[..n][..n - 1] == m[..n - 1];
    }
  }

  lemma {:induction false} FinishedBySum(r: seq<int>, stop: int)
    requires |r| % 2 == 0
    ensures FinishedBy(r, stop) == CumSum(RangeDone(Starts(r), Ends(r), stop), |r| / 2)
    decreases |r|
  {
    if r != [] {
      var front, k := r[..|r| - 2], |r| / 2;
      FinishedBySum(front, stop);
      var d := RangeDone(Starts(r), Ends(r), stop);
      assert d[..k - 1] == RangeDone(Starts(front), Ends(front), stop);
      CumSumPrefix(d, k - 1);
      assert d[k - 1] == DoneInRange(r[|r| - 2], r[|r| - 1], stop);
    }
  }

  /** Finished lengths computed on the flattened ranges, by differences of one running total. */
  function FlatFinished(progress: seq<seq<int>>, stop: int, i: nat): int
    requires i < |progress| && |AllStarts(progress)| == |AllEnds(progress)| == CumRanges(progress, |progress|)
    requires CumRanges(progress, i) <= CumRanges(progress, i + 1) <= CumRanges(progress, |progress|)
  {
    var d := RangeDone(AllStarts(progress), AllEnds(progress), stop);
    CumSum(d, CumRanges(progress, i + 1)) - CumSum(d, CumRanges(progress, i))
  }

  /** The flattened form gives the same finished lengths and last iterations as the lists. */
  lemma {:induction false} FlatAgrees(progress: seq<seq<int>>, stop: int, i: nat)
    requires i < |progress| && |progress[i]| % 2 == 0
    ensures |AllStarts(progress)| == |AllEnds(progress)| == CumRanges(progress, |progress|)
    ensures CumRanges(progress, i) <= CumRanges(progress, i + 1) <= CumRanges(progress, |progress|)
    ensures FlatFinished(progress, stop, i) == FinishedBy(progress[i], stop)
    ensures progress[i] != [] ==> AllEnds(progress)[CumRanges(progress, i + 1) - 1] == progress[i][|progress[i]| - 1]
  {
    FlatSlices(progress, i);
    var starts, ends := AllStarts(progress), AllEnds(progress);
    var lo, hi := CumRanges(progress, i), CumRanges(progress, i + 1);
    var d := RangeDone(starts, ends, stop);
    CumSumSlice(d, lo, hi);
    assert d[lo..hi] == RangeDone(starts[lo..hi], ends[lo..hi], stop);
    FinishedBySum(progress[i], stop);
    if progress[i] != [] {
      assert ends[hi - 1] == ends[lo..hi][hi - lo - 1];
    }
  }

  // ----- finish times

  /** The clock reading at the end of the last iteration of request i. */
  function FinishTime(cum: seq<real>, r: seq<int>): real
    requires r != [] && 0 <= r[|r| - 1] < |cum|
  {
    cum[r[|r| - 1]]
  }

  /** A request finishes at the end of the iteration that produces its last token, and not before
      it arrived. */
  lemma {:induction false} FinishesAfterArrival(
      job: Job, tr: Trace, c: Costs, arrive: seq<real>, cum: seq<real>, i: nat)
    requires Complete(job, tr) && Causal(tr, c, arrive, cum) && NonNegativeCosts(c) && i < |job.inp|
    ensures var r := tr.progress[i];
            && r != [] && 0 <= r[|r| - 1] < |cum|
            && FinishTime(cum, r) >= arrive[i]
            && FinishedBy(r, r[|r| - 1]) == job.out[i]
            && FinishedBy(r, r[|r| - 1] - 1) == job.out[i] - 1
  {
    var r := tr.progress[i];
    CanonicalFacts(r, |tr.steps|);
    AttendsLast(r, |tr.steps|);
    var last: nat := r[|r| - 1];
    assert StartsLegally(tr, Latencies(tr, c), arrive, cum, last);
    LatenciesNonNegative(tr.steps, tr.prefills, tr.valids, tr.decodes, c);
    assert Canonical(r, last + 1);
    FinishedByLate(r, last + 1, last);
    FinishedByCounts(r, last + 1, last);
  }

  /** The finish time is the reading of the one iteration that brings the count to the full output. */
  lemma {:induction false} FinishTimeExact(
      job: Job, tr: Trace, c: Costs, arrive: seq<real>, cum: seq<real>, i: nat, t: nat)
    requires Complete(job, tr) && Causal(tr, c, arrive, cum) && NonNegativeCosts(c) && i < |job.inp|
    ensures var r := tr.progress[i];
            && r != [] && 0 <= r[|r| - 1] < |cum|
            && (FinishedBy(r, t) == job.out[i] && FinishedBy(r, t - 1) < job.out[i] <==> t == r[|r| - 1])
            && (t == r[|r| - 1] ==> FinishTime(cum, r) == cum[t])
  {
    var r := tr.progress[i];
    FinishesAfterArrival(job, tr, c, arrive, cum, i);
    var last := r[|r| - 1];
    if t < last {
      FinishedByMonotone(r, |tr.steps|, t, last - 1);
    } else if t > last {
      FinishedByMonotone(r, |tr.steps|, last, t - 1);
    }
  }

  /** The clock never goes back. */
  lemma {:induction false} ClockMonotone(tr: Trace, c: Costs, arrive: seq<real>, cum: seq<real>, s: nat, t: nat)
    requires Causal(tr, c, arrive, cum) && NonNegativeCosts(c) && s <= t < |cum|
    ensures 0.0 <= cum[s] <= cum[t]
    decreases t
  {
    LatenciesNonNegative(tr.steps, tr.prefills, tr.valids, tr.decodes, c);
    assert StartsLegally(tr, Latencies(tr, c), arrive, cum, t);
    if s < t {
      ClockMonotone(tr, c, arrive, cum, s, t - 1);
    } else if t > 0 {
      ClockMonotone(tr, c, arrive, cum, t - 1, t - 1);
    }
  }
}
