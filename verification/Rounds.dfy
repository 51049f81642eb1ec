/** One scheduling round on the queues and the trace together. */
module Rounds {
  import opened Lists
  import opened Requests
  import opened Ranges
  import opened DecodeJump
  import opened Packing
  import opened Traces
  import opened TraceInvariant
  import opened TraceSteps
  import opened Queues

  /** Tokens produced so far, read off the ranges. */
  function DoneOf(progress: seq<seq<int>>): (d: seq<int>)
    ensures |d| == |progress| && forall i :: 0 <= i < |d| ==> d[i] == Total(progress[i])
  {
    seq(|progress|, i requires 0 <= i < |progress| => Total(progress[i]))
  }

  /** The waiting requests did not take part in the latest iteration. */
  ghost predicate Idle(tr: Trace, wait: seq<Req>) {
    forall i :: 0 <= i < |wait| ==>
      wait[i].id < |tr.progress| && !Attends(tr.progress[wait[i].id], |tr.steps| - 1)
  }

  ghost predicate Consistent(job: Job, tr: Trace, run: seq<Req>, wait: seq<Req>, received: nat, fifo: bool) {
    && job.Valid()
    && TraceInv(job, tr)
    && QueueInv(job, run, wait, received, DoneOf(tr.progress), fifo)
  }

  /** The state between rounds. */
  ghost predicate RoundInv(job: Job, tr: Trace, run: seq<Req>, wait: seq<Req>, received: nat, fifo: bool) {
    Consistent(job, tr, run, wait, received, fifo) && Idle(tr, wait)
  }

  // ----- prefill

  /** The prompts can be prefilled now, in any batches. */
  ghost predicate PromptsReady(job: Job, tr: Trace, ps: seq<Prompt>) {
    && |tr.progress| == |job.inp|
    && Distinct(Ids(ps))
    && forall i :: 0 <= i < |ps| ==>
         && ps[i].id < |tr.progress|
         && ps[i].len == job.inp[ps[i].id] + Total(tr.progress[ps[i].id])
         && !Attends(tr.progress[ps[i].id], |tr.steps| - 1)
  }

  /** What prefilling the prompts does to request i. */
  ghost predicate Prefilled(tr: Trace, tr': Trace, ps: seq<Prompt>, i: nat)
    requires i < |tr.progress| == |tr'.progress|
  {
    && Total(tr'.progress[i]) == Total(tr.progress[i]) + (if i in Ids(ps) then 1 else 0)
    && (i !in Ids(ps) ==> tr'.progress[i] == tr.progress[i])
  }

  lemma {:induction false} DistinctSplit(a: seq<nat>, b: seq<nat>)
    requires Distinct(a + b)
    ensures Distinct(a) && Distinct(b)
    ensures forall i :: 0 <= i < |b| ==> b[i] !in a
  {
    var all := a + b;
    assert forall i :: 0 <= i < |a| ==> a[i] == all[i];
    assert forall i :: 0 <= i < |b| ==> b[i] == all[|a| + i];
  }

  lemma {:induction false} BatchReady(job: Job, tr: Trace, batch: seq<Prompt>, others: seq<Prompt>)
    requires batch != [] && PromptsReady(job, tr, batch + others)
    ensures PromptsReady(job, tr, batch) && Ready(job, tr, batch)
    ensures PromptsReady(job, tr, others)
    ensures forall i :: 0 <= i < |others| ==> others[i].id !in Ids(batch)
  {
    assert Ids(batch + others) == Ids(batch) + Ids(others);
    DistinctSplit(Ids(batch), Ids(others));
    forall i | 0 <= i < |others| ensures others[i].id !in Ids(batch) && others[i] == (batch + others)[|batch| + i] {
      assert Ids(others)[i] == others[i].id;
    }
    assert forall i :: 0 <= i < |batch| ==> batch[i] == (batch + others)[i];
  }

  lemma {:induction false} BatchDone(job: Job, tr: Trace, batch: seq<Prompt>, tr': Trace)
    requires OneMore(job, tr, batch, tr')
    ensures forall i: nat :: i < |tr.progress| ==> Prefilled(tr, tr', batch, i)
  {
    forall i: nat | i < |tr.progress| ensures Prefilled(tr, tr', batch, i) {
      RequestStep(job, tr, batch, tr', i);
      AddRangeFacts(tr.progress[i], |tr.steps|, |tr.steps|);
    }
  }

  lemma {:induction false} OthersStillReady(job: Job, tr: Trace, batch: seq<Prompt>, others: seq<Prompt>, tr': Trace)
    requires OneMore(job, tr, batch, tr') && PromptsReady(job, tr, others)
    requires forall i :: 0 <= i < |others| ==> others[i].id !in Ids(batch)
    ensures PromptsReady(job, tr', others)
  {
    forall i | 0 <= i < |others|
      ensures tr'.progress[others[i].id] == tr.progress[others[i].id]
      ensures !Attends(tr'.progress[others[i].id], |tr'.steps| - 1)
    {
      RequestStep(job, tr, batch, tr', others[i].id);
    }
  }

  lemma {:induction false} PrefillAllKeeps(job: Job, tr: Trace, batches: seq<seq<Prompt>>)
    requires job.Valid() && TraceInv(job, tr)
    requires forall i :: 0 <= i < |batches| ==> batches[i] != []
    requires PromptsReady(job, tr, Flatten(batches))
    ensures BatchesFor(batches, |tr.progress|)
    ensures TraceInv(job, PrefillAll(tr, batches))
    ensures |PrefillAll(tr, batches).steps| == |tr.steps| + |batches|
    ensures forall i: nat :: i < |tr.progress| ==> Prefilled(tr, PrefillAll(tr, batches), Flatten(batches), i)
    decreases |batches|
  {
    if batches != [] {
      var batch, others := batches[0], Flatten(batches[1..]);
      BatchReady(job, tr, batch, others);
      PrefillKeeps(job, tr, batch);
      var tr1 := Prefill(tr, batch);
      BatchDone(job, tr, batch, tr1);
      OthersStillReady(job, tr, batch, others, tr1);
      PrefillAllKeeps(job, tr1, batches[1..]);
      var all := Flatten(batches);
      forall i: nat | i < |tr.progress| ensures Prefilled(tr, PrefillAll(tr, batches), all, i) {
        assert Prefilled(tr, tr1, batch, i);
        assert Prefilled(tr1, PrefillAll(tr1, batches[1..]), others, i);
        IdsOfSum(batch, others, i);
      }
      forall k | 0 <= k < |batches| ensures InRange(Ids(batches[k]), |tr.progress|) {
        if k > 0 {
          assert batches[k] == batches[1..][k - 1];
        }
      }
    }
  }

  lemma {:induction false} IdsOfSum(a: seq<Prompt>, b: seq<Prompt>, i: nat)
    ensures i in Ids(a + b) <==> i in Ids(a) || i in Ids(b)
    ensures Distinct(Ids(a + b)) ==> !(i in Ids(a) && i in Ids(b))
  {
    assert Ids(a + b) == Ids(a) + Ids(b);
    if i in Ids(a) && i in Ids(b) {
      var j, k :| 0 <= j < |a| && Ids(a)[j] == i && 0 <= k < |b| && Ids(b)[k] == i;
      assert Ids(a + b)[j] == Ids(a + b)[|a| + k];
    }
  }

  lemma {:induction false} PresentIsId(ps: seq<Req>, i: nat)
    ensures Present(ps, i) <==> i in Ids(AsPrompts(ps))
  {
    if Present(ps, i) {
      var k :| 0 <= k < |ps| && ps[k].id == i;
      assert Ids(AsPrompts(ps))[k] == i;
    }
    if i in Ids(AsPrompts(ps)) {
      var k :| 0 <= k < |ps| && Ids(AsPrompts(ps))[k] == i;
      assert ps[k].id == i;
    }
  }

  /** What packing the admitted prompts yields. */
  ghost predicate PackedAs(job: Job, prompts: seq<Req>, bs: seq<seq<Prompt>>) {
    && Flatten(bs) == AsPrompts(prompts)
    && AllFit(bs, job.lim.maxTokens)
  }

  /** What the invariant says of one waiting request. */
  lemma {:induction false} WaitingAt(
      job: Job, tr: Trace, run: seq<Req>, wait: seq<Req>, received: nat, fifo: bool, i: nat)
    requires job.Valid() && QueueInv(job, run, wait, received, DoneOf(tr.progress), fifo) && RangesCanonical(tr)
    requires i < |wait|
    ensures var r := wait[i];
            && r.id < |tr.progress|
            && r.len == job.inp[r.id] + Total(tr.progress[r.id]) >= 1
            && r.rem >= 1
            && (AllServable(job) ==> r.len <= job.lim.maxTokens)
            && !Present(run, r.id)
  {
    var reqs, n, r := run + wait, |run|, wait[i];
    assert reqs[n + i] == r;
    assert LinkedAt(job, reqs[n + i], received, DoneOf(tr.progress));
    CanonicalFacts(tr.progress[r.id], |tr.steps|);
    if AllServable(job) {
      assert Servable(job, r.id);
    }
    forall k | 0 <= k < |run| ensures run[k].id != r.id {
      assert reqs[k] == run[k];
    }
  }

  lemma {:induction false} SubOrder(a: seq<Req>, b: seq<Req>, c: seq<Req>, fifo: bool)
    requires InOrder(a + (b + c), fifo)
    ensures InOrder(a, fifo) && InOrder(b, fifo) && InOrder(c, fifo)
    ensures forall i, j :: 0 <= i < |b| && 0 <= j < |c| ==> b[i].id != c[j].id
    ensures forall i, j :: 0 <= i < |a| && 0 <= j < |b| ==> a[i].id != b[j].id
  {
    var all := a + (b + c);
    assert forall i :: 0 <= i < |a| ==> a[i] == all[i];
    assert forall i :: 0 <= i < |b| ==> b[i] == all[|a| + i];
    assert forall i :: 0 <= i < |c| ==> c[i] == all[|a| + |b| + i];
  }

  lemma {:induction false} WaitingReady(
      job: Job, tr: Trace, run: seq<Req>, prompts: seq<Req>, wait: seq<Req>, received: nat, fifo: bool)
    requires job.Valid() && RangesCanonical(tr) && Idle(tr, prompts + wait)
    requires QueueInv(job, run, prompts + wait, received, DoneOf(tr.progress), fifo)
    ensures PromptsReady(job, tr, AsPrompts(prompts)) && InOrder(prompts, fifo)
    ensures NonNegative(AsPrompts(prompts))
    ensures AllServable(job) ==> forall i :: 0 <= i < |prompts| ==> prompts[i].len <= job.lim.maxTokens
    ensures forall i :: 0 <= i < |wait| ==> !Present(prompts, wait[i].id)
  {
    SubOrder(run, prompts, wait, fifo);
    forall i: nat | i < |prompts|
      ensures var r := prompts[i];
              && r.id < |tr.progress|
              && r.len == job.inp[r.id] + Total(tr.progress[r.id]) >= 1
              && (AllServable(job) ==> r.len <= job.lim.maxTokens)
              && !Attends(tr.progress[r.id], |tr.steps| - 1)
    {
      assert (prompts + wait)[i] == prompts[i];
      WaitingAt(job, tr, run, prompts + wait, received, fifo, i);
    }
  }

  lemma {:induction false} DoneAfterPrefill(tr: Trace, tr': Trace, prompts: seq<Req>)
    requires |tr.progress| == |tr'.progress| && InOrder(prompts, false)
    requires forall i :: 0 <= i < |prompts| ==> prompts[i].id < |tr.progress|
    requires forall i: nat :: i < |tr.progress| ==> Prefilled(tr, tr', AsPrompts(prompts), i)
    ensures DoneOf(tr'.progress) == BumpAll(DoneOf(tr.progress), prompts)
  {
    var a, b := DoneOf(tr'.progress), BumpAll(DoneOf(tr.progress), prompts);
    forall i: nat | i < |a| ensures a[i] == b[i] {
      assert Prefilled(tr, tr', AsPrompts(prompts), i);
      BumpAllAt(DoneOf(tr.progress), prompts, i);
      PresentIsId(prompts, i);
    }
  }

  lemma {:induction false} IdleAfterPrefill(tr: Trace, tr': Trace, prompts: seq<Req>, wait: seq<Req>)
    requires |tr.progress| == |tr'.progress| && |tr'.steps| >= |tr.steps| && RangesCanonical(tr)
    requires Idle(tr, prompts + wait)
    requires forall i :: 0 <= i < |wait| ==> !Present(prompts, wait[i].id)
    requires forall i: nat :: i < |tr.progress| ==> Prefilled(tr, tr', AsPrompts(prompts), i)
    ensures Idle(tr', wait)
  {
    forall i | 0 <= i < |wait|
      ensures wait[i].id < |tr'.progress| && !Attends(tr'.progress[wait[i].id], |tr'.steps| - 1)
    {
      assert (prompts + wait)[|prompts| + i] == wait[i];
      PresentIsId(prompts, wait[i].id);
      assert Prefilled(tr, tr', AsPrompts(prompts), wait[i].id);
      CanonicalFacts(tr.progress[wait[i].id], |tr.steps|);
    }
  }

  /** Admission followed by the prefill of the admitted prompts. */
  lemma {:induction false} AdmitPrefillKeeps(
      job: Job, tr: Trace, run: seq<Req>, wait: seq<Req>, received: nat, fifo: bool, bs: seq<seq<Prompt>>)
    requires RoundInv(job, tr, run, wait, received, fifo)
    requires PackedAs(job, Admit(job.lim, run, wait, Blocks(run, 0, job.lim.blockSize)).prompts, bs)
    ensures BatchesFor(bs, |tr.progress|)
    ensures var a := Admit(job.lim, run, wait, Blocks(run, 0, job.lim.blockSize));
            var tr' := PrefillAll(tr, bs);
            && RoundInv(job, tr', a.run, a.wait, received, fifo)
            && !CanAdmit(job.lim, a.run, a.wait, Blocks(a.run, 0, job.lim.blockSize))
            && |tr'.steps| == |tr.steps| + |bs|
            && (forall i: nat :: i < |tr.progress| ==> Prefilled(tr, tr', AsPrompts(a.prompts), i))
  {
    var done := DoneOf(tr.progress);
    AdmitKeeps(job, run, wait, received, done, fifo);
    var a := Admit(job.lim, run, wait, Blocks(run, 0, job.lim.blockSize));
    assert Admitted(job, run, wait, received, done, fifo, a);
    WaitingReady(job, tr, run, a.prompts, a.wait, received, fifo);
    PrefillAllKeeps(job, tr, bs);
    var tr' := PrefillAll(tr, bs);
    DoneAfterPrefill(tr, tr', a.prompts);
    IdleAfterPrefill(tr, tr', a.prompts, a.wait);
  }

  // ----- decode

  /** What k decode steps of the table do to request i. */
  ghost predicate Decoded(tr: Trace, tr': Trace, run: seq<Req>, k: nat, i: nat)
    requires i < |tr.progress| == |tr'.progress|
  {
    && Total(tr'.progress[i]) == Total(tr.progress[i]) + (if Present(run, i) then k else 0)
    && (!Present(run, i) ==> tr'.progress[i] == tr.progress[i])
    && (Present(run, i) && k > 0 ==> tr'.progress[i] != [])
  }

  ghost predicate TableReady(job: Job, tr: Trace, run: seq<Req>) {
    && Ready(job, tr, AsPrompts(run))
    && forall i :: 0 <= i < |run| ==> run[i].id < |tr.progress| && tr.progress[run[i].id] != []
  }

  lemma {:induction false} DecodeOneMore(job: Job, tr: Trace, run: seq<Req>)
    requires job.Valid() && TraceInv(job, tr) && TableReady(job, tr, run)
    requires Blocks(run, 1, job.lim.blockSize) <= job.lim.maxBlocks
    ensures TraceInv(job, Decode(tr, run, 1))
    ensures forall i: nat :: i < |tr.progress| ==> Decoded(tr, Decode(tr, run, 1), run, 1, i)
  {
    DecodeOneKeeps(job, tr, run);
    var tr' := Decode(tr, run, 1);
    forall i: nat | i < |tr.progress| ensures Decoded(tr, tr', run, 1, i) {
      RequestStep(job, tr, AsPrompts(run), tr', i);
      PresentIsId(run, i);
      AddRangeFacts(tr.progress[i], |tr.steps|, |tr.steps|);
    }
  }

  /** After k - 1 decode steps the table, moved on by k - 1, is ready for the next one. */
  lemma {:induction false} StillReady(job: Job, tr: Trace, mid: Trace, run: seq<Req>, k: nat)
    requires TableReady(job, tr, run) && |mid.progress| == |tr.progress| && k >= 1
    requires forall i: nat :: i < |tr.progress| ==> Decoded(tr, mid, run, k, i)
    ensures TableReady(job, mid, Advance(run, k))
  {
    var next := Advance(run, k);
    assert Ids(AsPrompts(next)) == Ids(AsPrompts(run));
    forall i | 0 <= i < |next|
      ensures next[i].id < |mid.progress| && mid.progress[next[i].id] != []
      ensures next[i].len == job.inp[next[i].id] + Total(mid.progress[next[i].id])
    {
      assert AsPrompts(run)[i].id == Ids(AsPrompts(run))[i];
      assert Present(run, run[i].id);
      assert Decoded(tr, mid, run, k, run[i].id);
    }
  }

  lemma {:induction false} DecodedTwice(tr: Trace, mid: Trace, last: Trace, run: seq<Req>, k: nat, i: nat)
    requires i < |tr.progress| == |mid.progress| == |last.progress|
    requires Decoded(tr, mid, run, k, i) && Decoded(mid, last, Advance(run, k), 1, i)
    ensures Decoded(tr, last, run, k + 1, i)
  {
    assert Ids(AsPrompts(Advance(run, k))) == Ids(AsPrompts(run));
    PresentIsId(run, i);
    PresentIsId(Advance(run, k), i);
  }

  lemma {:induction false} JumpOneMore(job: Job, tr: Trace, mid: Trace, run: seq<Req>, j: nat, k: nat)
    requires job.Valid() && TableReady(job, tr, run) && j >= 1 && k == j + 1
    requires mid == Decode(tr, run, j) && TraceInv(job, mid)
    requires forall i: nat :: i < |tr.progress| ==> Decoded(tr, mid, run, j, i)
    requires Blocks(run, k, job.lim.blockSize) <= job.lim.maxBlocks
    ensures TraceInv(job, Decode(tr, run, k))
    ensures forall i: nat :: i < |tr.progress| ==> Decoded(tr, Decode(tr, run, k), run, k, i)
  {
    DecodeUnrolls(tr, run, j);
    var next := Advance(run, j);
    BlocksAdvance(run, j, 1, job.lim.blockSize);
    StillReady(job, tr, mid, run, j);
    DecodeOneMore(job, mid, next);
    var last := Decode(mid, next, 1);
    forall i: nat | i < |tr.progress| ensures Decoded(tr, last, run, k, i) {
      assert Decoded(tr, mid, run, j, i);
      assert Decoded(mid, last, next, 1, i);
      DecodedTwice(tr, mid, last, run, j, i);
    }
  }

  /** A jump of k steps keeps the trace invariant, because each of its steps does. */
  lemma {:induction false} JumpKeeps(job: Job, tr: Trace, run: seq<Req>, k: nat)
    requires job.Valid() && TraceInv(job, tr) && TableReady(job, tr, run) && k >= 1
    requires Blocks(run, k, job.lim.blockSize) <= job.lim.maxBlocks
    ensures TraceInv(job, Decode(tr, run, k))
    ensures forall i: nat :: i < |tr.progress| ==> Decoded(tr, Decode(tr, run, k), run, k, i)
  {
    if k == 1 {
      DecodeOneMore(job, tr, run);
    } else {
      BlocksMono(run, k - 1, k, job.lim.blockSize);
      JumpKeeps(job, tr, run, k - 1);
      JumpOneMore(job, tr, Decode(tr, run, k - 1), run, k - 1, k);
    }
  }

  lemma {:induction false} RunReady(job: Job, tr: Trace, run: seq<Req>, wait: seq<Req>, received: nat, fifo: bool)
    requires job.Valid() && RangesCanonical(tr) && run != []
    requires QueueInv(job, run, wait, received, DoneOf(tr.progress), fifo)
    ensures TableReady(job, tr, run)
    ensures MinRem(run) >= 1
  {
    var reqs := run + wait;
    assert run + (wait + []) == reqs;
    SubOrder(run, wait, [], fifo);
    forall i | 0 <= i < |run|
      ensures run[i].id < |tr.progress| && tr.progress[run[i].id] != []
      ensures run[i].len == job.inp[run[i].id] + Total(tr.progress[run[i].id])
      ensures run[i].rem >= 1
    {
      assert reqs[i] == run[i];
      assert LinkedAt(job, reqs[i], received, DoneOf(tr.progress));
      CanonicalFacts(tr.progress[run[i].id], |tr.steps|);
    }
    MinRemBound(run);
  }

  lemma {:induction false} DoneAfterDecode(tr: Trace, tr': Trace, run: seq<Req>, k: nat)
    requires |tr.progress| == |tr'.progress|
    requires forall i: nat :: i < |tr.progress| ==> Decoded(tr, tr', run, k, i)
    ensures DoneOf(tr'.progress) == Grow(DoneOf(tr.progress), run, k)
  {
    var a, b := DoneOf(tr'.progress), Grow(DoneOf(tr.progress), run, k);
    forall i: nat | i < |a| ensures a[i] == b[i] {
      assert Decoded(tr, tr', run, k, i);
    }
  }

  lemma {:induction false} IdleAfterDecode(
      job: Job, tr: Trace, tr': Trace, run: seq<Req>, wait: seq<Req>, received: nat, fifo: bool, k: nat)
    requires job.Valid() && RangesCanonical(tr) && |tr.progress| == |tr'.progress|
    requires QueueInv(job, run, wait, received, DoneOf(tr.progress), fifo)
    requires |tr'.steps| == |tr.steps| + k && k >= 1
    requires forall i: nat :: i < |tr.progress| ==> Decoded(tr, tr', run, k, i)
    ensures Idle(tr', wait)
  {
    forall i: nat | i < |wait|
      ensures wait[i].id < |tr'.progress| && !Attends(tr'.progress[wait[i].id], |tr'.steps| - 1)
    {
      WaitingAt(job, tr, run, wait, received, fifo, i);
      assert Decoded(tr, tr', run, k, wait[i].id);
      CanonicalFacts(tr.progress[wait[i].id], |tr.steps|);
    }
  }

  /** k decode steps of a table that has room for them, then compaction. */
  lemma {:induction false} DecodeRoundKeeps(
      job: Job, tr: Trace, run: seq<Req>, wait: seq<Req>, received: nat, fifo: bool, k: nat)
    requires Consistent(job, tr, run, wait, received, fifo) && run != []
    requires 1 <= k <= MinRem(run) && Blocks(run, k, job.lim.blockSize) <= job.lim.maxBlocks
    ensures InRange(Ids(AsPrompts(run)), |tr.progress|)
    ensures RoundInv(job, Decode(tr, run, k), Unfinished(Advance(run, k)), wait, received, fifo)
    ensures forall i: nat :: i < |tr.progress| ==> Decoded(tr, Decode(tr, run, k), run, k, i)
  {
    RunReady(job, tr, run, wait, received, fifo);
    JumpKeeps(job, tr, run, k);
    DecodeKeeps(job, run, wait, received, DoneOf(tr.progress), fifo, k);
    var tr' := Decode(tr, run, k);
    DoneAfterDecode(tr, tr', run, k);
    IdleAfterDecode(job, tr, tr', run, wait, received, fifo, k);
  }
}
