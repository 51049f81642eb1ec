/** First come, first served: without arrivals, requests start in the order they were given. */
module FirstCome {
  import opened Lists
  import opened Requests
  import opened Ranges
  import opened Packing
  import opened Traces
  import opened TraceInvariant
  import opened TraceSteps
  import opened Queues
  import opened Rounds

  /** An older request has started no later than a younger one that has started. */
  ghost predicate StartsInOrder(progress: seq<seq<int>>) {
    forall i, j :: 0 <= i < j < |progress| && |progress[j]| > 0 ==>
      |progress[i]| > 0 && progress[i][0] <= progress[j][0]
  }

  /** Everyone older than a prompt has started or comes before it among the prompts. */
  ghost predicate NobodySkipped(progress: seq<seq<int>>, ps: seq<Prompt>) {
    forall k, i: nat :: 0 <= k < |ps| && i < ps[k].id && i < |progress| ==>
      |progress[i]| > 0 || i in Ids(ps[..k])
  }

  lemma {:induction false} AddRangeFirst(r: seq<int>, bound: int, start: int, end: int)
    requires Canonical(r, bound)
    ensures |AddRange(r, start, end)| > 0
    ensures AddRange(r, start, end)[0] == if |r| > 0 then r[0] else start
  {
  }

  lemma {:induction false} StartedBefore(tr: Trace, i: nat)
    requires RangesCanonical(tr) && i < |tr.progress| && |tr.progress[i]| > 0
    ensures tr.progress[i][0] < |tr.steps|
  {
    FirstBelow(tr.progress[i], |tr.steps|);
  }

  lemma {:induction false} FirstBelow(r: seq<int>, bound: int)
    requires Canonical(r, bound) && |r| > 0
    ensures r[0] < bound
    decreases |r|
  {
    if |r| > 2 {
      FirstBelow(r[..|r| - 2], r[|r| - 2] - 1);
    }
  }

  /** When request i first ran, before and after one more batch at iteration t. */
  ghost predicate FirstRuns(p: seq<seq<int>>, p': seq<seq<int>>, ids: seq<nat>, t: int) {
    && |p'| == |p|
    && forall i: nat :: i < |p| ==>
         && (|p'[i]| > 0 <==> |p[i]| > 0 || i in ids)
         && (|p[i]| > 0 ==> |p'[i]| > 0 && p'[i][0] == p[i][0] < t)
         && (|p[i]| == 0 && i in ids ==> |p'[i]| > 0 && p'[i][0] == t)
  }

  lemma {:induction false} BatchFirstRuns(job: Job, tr: Trace, batch: seq<Prompt>, tr': Trace)
    requires OneMore(job, tr, batch, tr')
    ensures FirstRuns(tr.progress, tr'.progress, Ids(batch), |tr.steps|)
  {
    var p, p', t := tr.progress, tr'.progress, |tr.steps|;
    forall i: nat | i < |p|
      ensures |p'[i]| > 0 <==> |p[i]| > 0 || i in Ids(batch)
      ensures |p[i]| > 0 ==> p'[i][0] == p[i][0] < t
      ensures |p[i]| == 0 && i in Ids(batch) ==> p'[i][0] == t
    {
      RequestStep(job, tr, batch, tr', i);
      AddRangeFirst(p[i], t, t, t);
      if |p[i]| > 0 {
        StartedBefore(tr, i);
      }
    }
  }

  lemma {:induction false} BatchOrder(job: Job, tr: Trace, batch: seq<Prompt>, others: seq<Prompt>, tr': Trace)
    requires OneMore(job, tr, batch, tr') && StartsInOrder(tr.progress)
    requires NobodySkipped(tr.progress, batch + others)
    ensures StartsInOrder(tr'.progress) && NobodySkipped(tr'.progress, others)
  {
    var p, p', ps := tr.progress, tr'.progress, batch + others;
    BatchFirstRuns(job, tr, batch, tr');
    forall i: nat, j: nat | i < j < |p'| && |p'[j]| > 0
      ensures |p'[i]| > 0 && p'[i][0] <= p'[j][0]
    {
      if |p[j]| == 0 && |p[i]| == 0 {
        var k :| 0 <= k < |batch| && Ids(batch)[k] == j;
        assert ps[k] == batch[k] && ps[..k] == batch[..k];
        assert i in Ids(batch[..k]);
        PrefixIds(batch, k, i);
      }
    }
    forall k, i: nat | 0 <= k < |others| && i < others[k].id && i < |p'|
      ensures |p'[i]| > 0 || i in Ids(others[..k])
    {
      var n := |batch| + k;
      assert ps[n] == others[k] && ps[..n] == batch + others[..k];
      IdsOfSum(batch, others[..k], i);
      assert |p[i]| > 0 || i in Ids(ps[..n]);
    }
  }

  lemma {:induction false} PrefixIds(batch: seq<Prompt>, k: nat, i: nat)
    requires k <= |batch| && i in Ids(batch[..k])
    ensures i in Ids(batch)
  {
    var j :| 0 <= j < k && Ids(batch[..k])[j] == i;
    assert Ids(batch)[j] == i;
  }

  lemma {:induction false} PrefillAllOrder(job: Job, tr: Trace, batches: seq<seq<Prompt>>)
    requires job.Valid() && TraceInv(job, tr)
    requires forall i :: 0 <= i < |batches| ==> batches[i] != []
    requires PromptsReady(job, tr, Flatten(batches))
    requires StartsInOrder(tr.progress) && NobodySkipped(tr.progress, Flatten(batches))
    ensures BatchesFor(batches, |tr.progress|) && StartsInOrder(PrefillAll(tr, batches).progress)
    decreases |batches|
  {
    PrefillAllKeeps(job, tr, batches);
    if batches != [] {
      var batch, others := batches[0], Flatten(batches[1..]);
      BatchReady(job, tr, batch, others);
      PrefillKeeps(job, tr, batch);
      BatchOrder(job, tr, batch, others, Prefill(tr, batch));
      OthersStillReady(job, tr, batch, others, Prefill(tr, batch));
      PrefillAllOrder(job, Prefill(tr, batch), batches[1..]);
    }
  }

  /** The admitted prompts skip nobody: whoever has not started is waiting, in order. */
  lemma {:induction false} PromptsSkipNobody(
      job: Job, tr: Trace, run: seq<Req>, prompts: seq<Req>, wait: seq<Req>)
    requires job.Valid() && RangesCanonical(tr)
    requires QueueInv(job, run, prompts + wait, |job.inp|, DoneOf(tr.progress), true)
    ensures NobodySkipped(tr.progress, AsPrompts(prompts))
  {
    var ps, done, reqs, n := AsPrompts(prompts), DoneOf(tr.progress), run + (prompts + wait), |run|;
    forall k, i: nat | 0 <= k < |ps| && i < ps[k].id && i < |tr.progress|
      ensures |tr.progress[i]| > 0 || i in Ids(ps[..k])
    {
      if |tr.progress[i]| == 0 {
        assert CoveredAt(job, reqs, |job.inp|, done, i);
        assert done[i] == 0;
        assert job.out[i] >= 1;
        var c :| 0 <= c < |reqs| && reqs[c].id == i;
        assert forall d :: 0 <= d < n ==> reqs[d] == run[d] && done[run[d].id] >= 1;
        assert reqs[n + k] == prompts[k] && n <= c < n + k;
        assert Ids(ps[..k])[c - n] == i;
      }
    }
  }

  /** Admission and prefill start requests in order. */
  lemma {:induction false} AdmitOrder(job: Job, tr: Trace, run: seq<Req>, wait: seq<Req>)
    requires RoundInv(job, tr, run, wait, |job.inp|, true) && AllServable(job) && StartsInOrder(tr.progress)
    ensures var prompts := Admit(job.lim, run, wait, Blocks(run, 0, job.lim.blockSize)).prompts;
            var p := Pack(AsPrompts(prompts), job.lim.maxTokens);
            p.Batches? && BatchesFor(p.batches, |tr.progress|) ==>
              StartsInOrder(PrefillAll(tr, p.batches).progress)
  {
    var done := DoneOf(tr.progress);
    AdmitKeeps(job, run, wait, |job.inp|, done, true);
    var a := Admit(job.lim, run, wait, Blocks(run, 0, job.lim.blockSize));
    assert Admitted(job, run, wait, |job.inp|, done, true, a);
    WaitingReady(job, tr, run, a.prompts, a.wait, |job.inp|, true);
    PromptsSkipNobody(job, tr, run, a.prompts, a.wait);
    PackSound(AsPrompts(a.prompts), job.lim.maxTokens);
    var p := Pack(AsPrompts(a.prompts), job.lim.maxTokens);
    if p.Batches? && BatchesFor(p.batches, |tr.progress|) {
      PrefillAllOrder(job, tr, p.batches);
    }
  }

  /** Decoding starts nobody. */
  lemma {:induction false} DecodeOrder(job: Job, tr: Trace, run: seq<Req>, wait: seq<Req>, k: nat)
    requires Consistent(job, tr, run, wait, |job.inp|, true) && StartsInOrder(tr.progress)
    requires run != [] && k >= 1
    ensures InRange(Ids(AsPrompts(run)), |tr.progress|) && StartsInOrder(Decode(tr, run, k).progress)
  {
    RunReady(job, tr, run, wait, |job.inp|, true);
    JumpOrder(job, tr, run, k);
  }

  lemma {:induction false} JumpOrder(job: Job, tr: Trace, run: seq<Req>, k: nat)
    requires job.Valid() && RangesCanonical(tr) && TableReady(job, tr, run) && k >= 1
    requires StartsInOrder(tr.progress)
    ensures InRange(Ids(AsPrompts(run)), |tr.progress|) && StartsInOrder(Decode(tr, run, k).progress)
  {
    var p' := Decode(tr, run, k).progress;
    forall i: nat | i < |p'|
      ensures |p'[i]| > 0 <==> |tr.progress[i]| > 0
      ensures |p'[i]| > 0 ==> p'[i][0] == tr.progress[i][0]
    {
      JumpFirst(job, tr, run, k, i);
    }
  }

  /** Decoding does not change when a request started. */
  lemma {:induction false} JumpFirst(job: Job, tr: Trace, run: seq<Req>, k: nat, i: nat)
    requires job.Valid() && RangesCanonical(tr) && TableReady(job, tr, run) && k >= 1 && i < |tr.progress|
    ensures InRange(Ids(AsPrompts(run)), |tr.progress|)
    ensures var p' := Decode(tr, run, k).progress;
            && |p'| == |tr.progress| && (|p'[i]| > 0 <==> |tr.progress[i]| > 0)
            && (|p'[i]| > 0 ==> p'[i][0] == tr.progress[i][0])
  {
    var ids, t := Ids(AsPrompts(run)), |tr.steps|;
    StoreAllAt(tr.progress, ids, t, t + k - 1, i);
    AddRangeFirst(tr.progress[i], t, t, t + k - 1);
    if i in ids {
      var c :| 0 <= c < |run| && ids[c] == i;
      assert run[c].id == i;
    }
  }
}
