/** Every iteration keeps the trace invariant. */
module TraceSteps {
  import opened Lists
  import opened Requests
  import opened Ranges
  import opened Packing
  import opened Traces
  import opened TraceInvariant

  /** The batch holds each request at most once, at the length its ranges imply. */
  ghost predicate Ready(job: Job, tr: Trace, batch: seq<Prompt>) {
    && batch != []
    && InRange(Ids(batch), |tr.progress|)
    && Distinct(Ids(batch))
    && |tr.progress| == |job.inp|
    && forall i :: 0 <= i < |batch| ==> batch[i].len == job.inp[batch[i].id] + Total(tr.progress[batch[i].id])
  }

  /** tr' is tr after one more iteration, taken by the batch. */
  ghost predicate OneMore(job: Job, tr: Trace, batch: seq<Prompt>, tr': Trace) {
    && Ready(job, tr, batch)
    && RangesCanonical(tr)
    && |tr'.steps| == |tr.steps| + 1 && tr'.steps[..|tr.steps|] == tr.steps
    && tr'.progress == StoreAll(tr.progress, Ids(batch), |tr.steps|, |tr.steps|)
  }

  /** What one more iteration does to the ranges of request i. */
  lemma {:induction false} RequestStep(job: Job, tr: Trace, batch: seq<Prompt>, tr': Trace, i: nat)
    requires OneMore(job, tr, batch, tr') && i < |tr.progress|
    ensures tr'.progress[i] == if i in Ids(batch) then AddRange(tr.progress[i], |tr.steps|, |tr.steps|)
            else tr.progress[i]
    ensures Canonical(tr'.progress[i], |tr'.steps|)
    ensures forall s :: s < |tr.steps| ==>
      && FinishedBy(tr'.progress[i], s) == FinishedBy(tr.progress[i], s)
      && (Attends(tr'.progress[i], s) <==> Attends(tr.progress[i], s))
    ensures Attends(tr'.progress[i], |tr.steps|) <==> i in Ids(batch)
    ensures !Attends(tr.progress[i], |tr.steps|)
    ensures forall s :: s >= |tr.steps| - 1 ==> FinishedBy(tr.progress[i], s) == Total(tr.progress[i])
  {
    var t, r := |tr.steps|, tr.progress[i];
    StoreAllAt(tr.progress, Ids(batch), t, t, i);
    CanonicalFacts(r, t);
    AddRangeFacts(r, t, t);
    forall s | s >= t - 1 ensures FinishedBy(r, s) == Total(r) {
      FinishedByLate(r, t, s);
    }
  }

  lemma {:induction false} RangesStep(job: Job, tr: Trace, batch: seq<Prompt>, tr': Trace)
    requires OneMore(job, tr, batch, tr')
    ensures RangesCanonical(tr')
  {
    forall i | 0 <= i < |tr'.progress| ensures Canonical(tr'.progress[i], |tr'.steps|) {
      RequestStep(job, tr, batch, tr', i);
    }
  }

  lemma {:induction false} PrefillsStep(job: Job, tr: Trace, batch: seq<Prompt>, tr': Trace)
    requires OneMore(job, tr, batch, tr') && PrefillsOpenRanges(tr)
    requires tr'.steps[|tr.steps|] ==>
      forall i :: 0 <= i < |batch| ==> !Attends(tr.progress[batch[i].id], |tr.steps| - 1)
    ensures PrefillsOpenRanges(tr')
  {
    var n := |tr.steps|;
    forall i, t | 0 <= i < |tr'.progress| && 0 <= t < |tr'.steps| && tr'.steps[t] && Attends(tr'.progress[i], t)
      ensures !Attends(tr'.progress[i], t - 1)
    {
      RequestStep(job, tr, batch, tr', i);
      if t < n {
        assert tr'.steps[t] == tr'.steps[..n][t];
        assert Attends(tr.progress[i], t);
      } else {
        var k :| 0 <= k < |batch| && Ids(batch)[k] == i;
        assert batch[k].id == i;
      }
    }
  }

  // ----- totals

  lemma {:induction false} HalfProduct(l: int) returns (x: int)
    ensures l * (l - 1) == 2 * x
  {
    if l % 2 == 0 {
      var h := l / 2;
      x := h * (l - 1);
      assert l == 2 * h;
      assert (2 * h) * (l - 1) == 2 * x;
    } else {
      var h := (l - 1) / 2;
      x := l * h;
      assert l - 1 == 2 * h;
      assert l * (2 * h) == 2 * x;
    }
  }

  lemma {:induction false} TriStep(l: int)
    ensures (l + 1) * l / 2 == l * (l - 1) / 2 + l
    ensures l * (l - 1) % 2 == 0
  {
    var x := HalfProduct(l);
    assert (l + 1) * l == 2 * x + 2 * l by {
      MulNext(l, l);
      MulNext(l - 1, l);
    }
  }

  function SeqsCost(progress: seq<seq<int>>): Prompt -> int {
    (b: Prompt) => 1 + FirstTokens(progress)(b)
  }

  function TokensCost(progress: seq<seq<int>>): Prompt -> int {
    (b: Prompt) => b.len + FirstContext(progress)(b) / 2
  }

  lemma {:induction false} CostSums(batch: seq<Prompt>, progress: seq<seq<int>>)
    ensures SumBatch(SeqsCost(progress), batch) == ValidLogOf(batch, progress).seqs
    ensures SumBatch(TokensCost(progress), batch) == ValidLogOf(batch, progress).tokens
    ensures SumBatch(FirstContext(progress), batch) % 2 == 0
  {
    if batch != [] {
      var b := batch[|batch| - 1];
      CostSums(batch[..|batch| - 1], progress);
      TriStep(b.len);
    }
  }

  lemma {:induction false} TotalsUnchanged(job: Job, tr: Trace, batch: seq<Prompt>, tr': Trace, stop: int)
    requires OneMore(job, tr, batch, tr') && stop < |tr.steps|
    ensures SumReq(TokensAt(job.inp, stop), tr'.progress) == SumReq(TokensAt(job.inp, stop), tr.progress)
    ensures SumReq(ContextAt(job.inp, stop), tr'.progress) == SumReq(ContextAt(job.inp, stop), tr.progress)
  {
    forall i: nat | i < |tr.progress|
      ensures FinishedBy(tr'.progress[i], stop) == FinishedBy(tr.progress[i], stop)
    {
      RequestStep(job, tr, batch, tr', i);
    }
    SumReqSame(TokensAt(job.inp, stop), TokensAt(job.inp, stop), tr'.progress, tr.progress);
    SumReqSame(ContextAt(job.inp, stop), ContextAt(job.inp, stop), tr'.progress, tr.progress);
  }

  /** One participant adds one token and its length, plus the whole prompt the first time. */
  lemma {:induction false} CostAt(job: Job, p: seq<seq<int>>, b: Prompt, t: nat)
    requires b.id < |p| == |job.inp| && Canonical(p[b.id], t)
    requires b.len == job.inp[b.id] + Total(p[b.id])
    ensures TokensAt(job.inp, t)(b.id, AddRange(p[b.id], t, t))
            == TokensAt(job.inp, t)(b.id, p[b.id]) + SeqsCost(p)(b)
    ensures ContextAt(job.inp, t)(b.id, AddRange(p[b.id], t, t))
            == ContextAt(job.inp, t)(b.id, p[b.id]) + TokensCost(p)(b)
  {
    AddRangeFacts(p[b.id], t, t);
    CanonicalFacts(p[b.id], t);
    FinishedByLate(p[b.id], t, t);
    TriStep(b.len);
    var r, r' := p[b.id], AddRange(p[b.id], t, t);
    assert FinishedBy(r', t) == Total(r) + 1;
    assert ValidLen(job.inp[b.id], FinishedBy(r', t)) == b.len;
    if r == [] {
      assert ValidLen(job.inp[b.id], FinishedBy(r, t)) == 0;
      assert FirstTokens(p)(b) == b.len - 1;
      assert FirstContext(p)(b) == b.len * (b.len - 1);
    } else {
      assert ValidLen(job.inp[b.id], FinishedBy(r, t)) == b.len - 1;
      assert FirstTokens(p)(b) == 0;
      assert FirstContext(p)(b) == 0;
    }
  }

  lemma {:induction false} TotalsGrow(job: Job, tr: Trace, batch: seq<Prompt>, tr': Trace)
    requires OneMore(job, tr, batch, tr')
    ensures SumReq(TokensAt(job.inp, |tr.steps|), tr'.progress)
            == SumReq(TokensAt(job.inp, |tr.steps| - 1), tr.progress) + ValidLogOf(batch, tr.progress).seqs
    ensures SumReq(ContextAt(job.inp, |tr.steps|), tr'.progress)
            == SumReq(ContextAt(job.inp, |tr.steps| - 1), tr.progress) + ValidLogOf(batch, tr.progress).tokens
  {
    var t, p := |tr.steps|, tr.progress;
    forall i: nat | i < |p| ensures FinishedBy(p[i], t) == FinishedBy(p[i], t - 1) {
      RequestStep(job, tr, batch, tr', i);
    }
    SumReqSame(TokensAt(job.inp, t), TokensAt(job.inp, t - 1), p, p);
    SumReqSame(ContextAt(job.inp, t), ContextAt(job.inp, t - 1), p, p);
    forall k | 0 <= k < |batch|
      ensures TokensAt(job.inp, t)(batch[k].id, AddRange(p[batch[k].id], t, t))
              == TokensAt(job.inp, t)(batch[k].id, p[batch[k].id]) + SeqsCost(p)(batch[k])
      ensures ContextAt(job.inp, t)(batch[k].id, AddRange(p[batch[k].id], t, t))
              == ContextAt(job.inp, t)(batch[k].id, p[batch[k].id]) + TokensCost(p)(batch[k])
    {
      assert batch[k].id == Ids(batch)[k];
      CostAt(job, p, batch[k], t);
    }
    StoreAllSum(TokensAt(job.inp, t), p, batch, t, t, SeqsCost(p));
    StoreAllSum(ContextAt(job.inp, t), p, batch, t, t, TokensCost(p));
    CostSums(batch, p);
  }

  lemma {:induction false} TotalsStep(job: Job, tr: Trace, batch: seq<Prompt>, tr': Trace)
    requires OneMore(job, tr, batch, tr') && TotalsMatch(job, tr)
    requires Merged(tr') == Merged(tr) + [ValidLogOf(batch, tr.progress)]
    ensures TotalsMatch(job, tr')
  {
    var n, e := |tr.steps|, ValidLogOf(batch, tr.progress);
    forall t | 0 <= t <= n + 1
      ensures CumSeqs(Merged(tr'), t) == SumReq(TokensAt(job.inp, t - 1), tr'.progress)
      ensures CumTokens(Merged(tr'), t) == SumReq(ContextAt(job.inp, t - 1), tr'.progress)
    {
      if t <= n {
        CumPrefix(Merged(tr), e, t);
        TotalsUnchanged(job, tr, batch, tr', t - 1);
      } else {
        CumPrefix(Merged(tr), e, n);
        TotalsGrow(job, tr, batch, tr');
      }
    }
  }

  // ----- log entries

  lemma {:induction false} SizesUnchanged(job: Job, tr: Trace, batch: seq<Prompt>, tr': Trace, t: int)
    requires OneMore(job, tr, batch, tr') && t < |tr.steps|
    ensures SumReq(SizeAt(t), tr'.progress) == SumReq(SizeAt(t), tr.progress)
    ensures SumReq(LengthsAt(job.inp, t), tr'.progress) == SumReq(LengthsAt(job.inp, t), tr.progress)
    ensures SumReq(AttentionAt(job.inp, t), tr'.progress) == SumReq(AttentionAt(job.inp, t), tr.progress)
    ensures forall m :: LongestAt(job.inp, tr.progress, t, m) ==> LongestAt(job.inp, tr'.progress, t, m)
  {
    var p, p' := tr.progress, tr'.progress;
    forall i: nat | i < |p|
      ensures Attends(p'[i], t) <==> Attends(p[i], t)
      ensures FinishedBy(p'[i], t - 1) == FinishedBy(p[i], t - 1)
    {
      RequestStep(job, tr, batch, tr', i);
    }
    SumReqSame(SizeAt(t), SizeAt(t), p', p);
    SumReqSame(LengthsAt(job.inp, t), LengthsAt(job.inp, t), p', p);
    SumReqSame(AttentionAt(job.inp, t), AttentionAt(job.inp, t), p', p);
    forall m | LongestAt(job.inp, p, t, m) ensures LongestAt(job.inp, p', t, m) {
      var i :| 0 <= i < |p| && Attends(p[i], t) && LenAt(job.inp, i, p[i], t) == m;
      assert Attends(p'[i], t) && LenAt(job.inp, i, p'[i], t) == m;
    }
  }

  function One(b: Prompt): int {
    1
  }

  lemma {:induction false} SumOnes(batch: seq<Prompt>)
    ensures SumBatch(One, batch) == |batch|
  {
    if batch != [] {
      SumOnes(batch[..|batch| - 1]);
    }
  }

  lemma {:induction false} SumNone(f: (nat, seq<int>) -> int, p: seq<seq<int>>)
    requires forall i :: 0 <= i < |p| ==> f(i, p[i]) == 0
    ensures SumReq(f, p) == 0
  {
    if p != [] {
      SumNone(f, p[..|p| - 1]);
    }
  }

  /** A sum over the participants of the newest iteration is the sum over the batch. */
  lemma {:induction false} NewestSum(
      job: Job, tr: Trace, batch: seq<Prompt>, tr': Trace, f: (nat, seq<int>) -> int, c: Prompt -> int)
    requires OneMore(job, tr, batch, tr')
    requires forall i :: 0 <= i < |tr.progress| ==> f(i, tr.progress[i]) == 0
    requires forall k :: 0 <= k < |batch| ==>
      f(batch[k].id, AddRange(tr.progress[batch[k].id], |tr.steps|, |tr.steps|)) == c(batch[k])
    ensures SumReq(f, tr'.progress) == SumBatch(c, batch)
  {
    SumNone(f, tr.progress);
    StoreAllSum(f, tr.progress, batch, |tr.steps|, |tr.steps|, c);
  }

  lemma {:induction false} BatchMember(job: Job, tr: Trace, batch: seq<Prompt>, tr': Trace, k: nat)
    requires OneMore(job, tr, batch, tr') && k < |batch|
    ensures var i := batch[k].id;
            && i < |tr.progress|
            && tr'.progress[i] == AddRange(tr.progress[i], |tr.steps|, |tr.steps|)
            && Attends(tr'.progress[i], |tr.steps|)
            && LenAt(job.inp, i, tr'.progress[i], |tr.steps|) == batch[k].len
  {
    assert Ids(batch)[k] == batch[k].id;
    RequestStep(job, tr, batch, tr', batch[k].id);
  }

  function CeilCost(bs: int): Prompt -> int
    requires bs >= 1
  {
    (b: Prompt) => CeilDiv(b.len, bs)
  }

  lemma {:induction false} NewestSums(job: Job, tr: Trace, batch: seq<Prompt>, tr': Trace, bs: int)
    requires OneMore(job, tr, batch, tr') && bs >= 1
    ensures var t := |tr.steps|;
            && SumReq(SizeAt(t), tr'.progress) == |batch|
            && SumReq(LengthsAt(job.inp, t), tr'.progress) == SumBatch(Len, batch)
            && SumReq(AttentionAt(job.inp, t), tr'.progress) == SumBatch(Attention, batch)
            && SumReq(BlocksAt(job.inp, bs, t), tr'.progress) == SumBatch(CeilCost(bs), batch)
  {
    var t := |tr.steps|;
    forall i: nat | i < |tr.progress| ensures !Attends(tr.progress[i], t) {
      RequestStep(job, tr, batch, tr', i);
    }
    forall k: nat | k < |batch|
      ensures var r := AddRange(tr.progress[batch[k].id], t, t);
              Attends(r, t) && LenAt(job.inp, batch[k].id, r, t) == batch[k].len
    {
      BatchMember(job, tr, batch, tr', k);
    }
    NewestSum(job, tr, batch, tr', SizeAt(t), One);
    SumOnes(batch);
    NewestSum(job, tr, batch, tr', LengthsAt(job.inp, t), Len);
    NewestSum(job, tr, batch, tr', AttentionAt(job.inp, t), Attention);
    NewestSum(job, tr, batch, tr', BlocksAt(job.inp, bs, t), CeilCost(bs));
  }

  lemma {:induction false} NewestLongest(job: Job, tr: Trace, batch: seq<Prompt>, tr': Trace)
    requires OneMore(job, tr, batch, tr')
    ensures LongestAt(job.inp, tr'.progress, |tr.steps|, MaxLen(batch))
  {
    var t := |tr.steps|;
    MaxLenBound(batch);
    forall i | 0 <= i < |tr'.progress| && Attends(tr'.progress[i], t)
      ensures LenAt(job.inp, i, tr'.progress[i], t) <= MaxLen(batch)
    {
      RequestStep(job, tr, batch, tr', i);
      var k :| 0 <= k < |batch| && Ids(batch)[k] == i;
      BatchMember(job, tr, batch, tr', k);
    }
    var k :| 0 <= k < |batch| && batch[k].len == MaxLen(batch);
    BatchMember(job, tr, batch, tr', k);
  }

  /** Older entries stay exact when logs only grow at the end. */
  lemma {:induction false} LogsUnchanged(job: Job, tr: Trace, batch: seq<Prompt>, tr': Trace, t: nat)
    requires OneMore(job, tr, batch, tr') && t < |tr.steps|
    requires LogsMatch(tr) && LogsMatch(tr') && LogExactAt(job, tr, t)
    requires tr.prefills <= tr'.prefills && tr.decodes <= tr'.decodes
    ensures LogExactAt(job, tr', t)
  {
    SizesUnchanged(job, tr, batch, tr', t);
    RankPrefix(tr.steps, tr'.steps, t);
    assert tr'.steps[t] == tr'.steps[..|tr.steps|][t];
    RankMonotone(tr.steps, t, |tr.steps|);
    RankMonotone(tr.steps, t + 1, |tr.steps|);
    RankMonotone(tr.steps, t, t + 1);
  }

  // ----- cache

  lemma {:induction false} CacheStep(job: Job, tr: Trace, batch: seq<Prompt>, tr': Trace)
    requires OneMore(job, tr, batch, tr') && job.lim.blockSize >= 1 && CacheRespected(job, tr)
    requires !tr'.steps[|tr.steps|] ==> SumBatch(CeilCost(job.lim.blockSize), batch) <= job.lim.maxBlocks
    ensures CacheRespected(job, tr')
  {
    var n, bs := |tr.steps|, job.lim.blockSize;
    forall t | 0 <= t < n + 1 && !tr'.steps[t]
      ensures SumReq(BlocksAt(job.inp, bs, t), tr'.progress) <= job.lim.maxBlocks
    {
      if t < n {
        assert tr'.steps[t] == tr'.steps[..n][t];
        forall i: nat | i < |tr.progress|
          ensures Attends(tr'.progress[i], t) <==> Attends(tr.progress[i], t)
          ensures FinishedBy(tr'.progress[i], t - 1) == FinishedBy(tr.progress[i], t - 1)
        {
          RequestStep(job, tr, batch, tr', i);
        }
        SumReqSame(BlocksAt(job.inp, bs, t), BlocksAt(job.inp, bs, t), tr'.progress, tr.progress);
      } else {
        NewestSums(job, tr, batch, tr', bs);
      }
    }
  }

  lemma {:induction false} BlocksAsSum(run: seq<Req>, bs: int)
    requires bs >= 1
    ensures SumBatch(CeilCost(bs), AsPrompts(run)) == Blocks(run, 1, bs)
  {
    if run != [] {
      var n := |run| - 1;
      BlocksAsSum(run[..n], bs);
      assert AsPrompts(run)[..n] == AsPrompts(run[..n]);
    }
  }

  // ----- the two kinds of iteration

  /** A prefill iteration keeps the invariant; its requests were idle the iteration before. */
  lemma {:induction false} PrefillKeeps(job: Job, tr: Trace, batch: seq<Prompt>)
    requires job.lim.blockSize >= 1 && TraceInv(job, tr) && Ready(job, tr, batch)
    requires forall i :: 0 <= i < |batch| ==> !Attends(tr.progress[batch[i].id], |tr.steps| - 1)
    ensures TraceInv(job, Prefill(tr, batch))
    ensures OneMore(job, tr, batch, Prefill(tr, batch))
  {
    var tr', n := Prefill(tr, batch), |tr.steps|;
    assert tr'.steps[..n] == tr.steps;
    assert tr'.valids[..|tr.valids|] == tr.valids;
    RankPrefix(tr.steps, tr'.steps, n);
    assert Merged(tr') == Merged(tr) + [ValidLogOf(batch, tr.progress)];
    RangesStep(job, tr, batch, tr');
    TotalsStep(job, tr, batch, tr');
    PrefillsStep(job, tr, batch, tr');
    CacheStep(job, tr, batch, tr');
    forall t | 0 <= t < n + 1 ensures LogExactAt(job, tr', t) {
      if t < n {
        LogsUnchanged(job, tr, batch, tr', t);
      } else {
        NewestSums(job, tr, batch, tr', 1);
        NewestLongest(job, tr, batch, tr');
      }
    }
  }

  lemma {:induction false} NothingNew(batch: seq<Prompt>, progress: seq<seq<int>>)
    requires forall i :: 0 <= i < |batch| ==> batch[i].id < |progress| && progress[batch[i].id] != []
    ensures SumBatch(FirstTokens(progress), batch) == 0 && SumBatch(FirstContext(progress), batch) == 0
  {
    if batch != [] {
      NothingNew(batch[..|batch| - 1], progress);
    }
  }

  lemma {:induction false} OldLogs(job: Job, tr: Trace, batch: seq<Prompt>, tr': Trace)
    requires OneMore(job, tr, batch, tr') && LogsMatch(tr) && LogsMatch(tr') && LogsExact(job, tr)
    requires tr.prefills <= tr'.prefills && tr.decodes <= tr'.decodes
    ensures forall t :: 0 <= t < |tr.steps| ==> LogExactAt(job, tr', t)
  {
    forall t | 0 <= t < |tr.steps| ensures LogExactAt(job, tr', t) {
      LogsUnchanged(job, tr, batch, tr', t);
    }
  }

  /** The shape of the trace after one decode iteration. */
  lemma {:induction false} DecodeOneShape(job: Job, tr: Trace, run: seq<Req>)
    requires LogsMatch(tr) && RangesCanonical(tr) && Ready(job, tr, AsPrompts(run))
    requires forall i :: 0 <= i < |run| ==> tr.progress[run[i].id] != []
    ensures var tr' := Decode(tr, run, 1);
            && OneMore(job, tr, AsPrompts(run), tr') && LogsMatch(tr')
            && Merged(tr') == Merged(tr) + [ValidLogOf(AsPrompts(run), tr.progress)]
            && tr'.steps == tr.steps + [false] && tr'.decodes == tr.decodes + [DecodeLogOf(run, 0)]
            && tr'.prefills == tr.prefills
            && Rank(tr'.steps, |tr.steps|) == Rank(tr.steps, |tr.steps|)
  {
    var tr', n := Decode(tr, run, 1), |tr.steps|;
    assert tr'.steps == tr.steps + [false];
    assert tr'.steps[..n] == tr.steps;
    assert tr'.decodes == tr.decodes + [DecodeLogOf(run, 0)];
    assert tr'.decodes[..|tr.decodes|] == tr.decodes;
    RankPrefix(tr.steps, tr'.steps, n);
    NothingNew(AsPrompts(run), tr.progress);
    assert Merged(tr') == Merged(tr) + [ValidLogOf(AsPrompts(run), tr.progress)];
  }

  lemma {:induction false} DecodeOneLogs(job: Job, tr: Trace, run: seq<Req>)
    requires LogsMatch(tr) && RangesCanonical(tr) && LogsExact(job, tr) && Ready(job, tr, AsPrompts(run))
    requires forall i :: 0 <= i < |run| ==> tr.progress[run[i].id] != []
    ensures LogsMatch(Decode(tr, run, 1)) && LogsExact(job, Decode(tr, run, 1))
  {
    var tr', batch := Decode(tr, run, 1), AsPrompts(run);
    DecodeOneShape(job, tr, run);
    OldLogs(job, tr, batch, tr');
    NewestSums(job, tr, batch, tr', 1);
    NewestLongest(job, tr, batch, tr');
    assert LogExactAt(job, tr', |tr.steps|);
  }

  /** A single decode iteration that the cache has room for keeps the invariant. */
  lemma {:induction false} DecodeOneKeeps(job: Job, tr: Trace, run: seq<Req>)
    requires job.lim.blockSize >= 1 && TraceInv(job, tr) && Ready(job, tr, AsPrompts(run))
    requires forall i :: 0 <= i < |run| ==> tr.progress[run[i].id] != []
    requires Blocks(run, 1, job.lim.blockSize) <= job.lim.maxBlocks
    ensures TraceInv(job, Decode(tr, run, 1))
    ensures OneMore(job, tr, AsPrompts(run), Decode(tr, run, 1))
  {
    var tr', batch := Decode(tr, run, 1), AsPrompts(run);
    DecodeOneShape(job, tr, run);
    DecodeOneLogs(job, tr, run);
    RangesStep(job, tr, batch, tr');
    TotalsStep(job, tr, batch, tr');
    PrefillsStep(job, tr, batch, tr');
    BlocksAsSum(run, job.lim.blockSize);
    CacheStep(job, tr, batch, tr');
  }
}
