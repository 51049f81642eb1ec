/** The scheduler's working state: fixed-size tables updated in place, and the operations both
    simulators run on them. Each is proved against the operation on queues and traces. */
module SchedulerState {
  import opened Lists
  import opened Requests
  import opened Ranges
  import opened Packing
  import opened Traces
  import opened Queues
  import opened Simulation

  function Zip(ids: seq<nat>, lens: seq<int>): (b: seq<Prompt>)
    requires |ids| == |lens|
    ensures |b| == |ids| && forall i :: 0 <= i < |b| ==> b[i] == Prompt(ids[i], lens[i])
  {
    seq(|ids|, i requires 0 <= i < |ids| => Prompt(ids[i], lens[i]))
  }

  function ZipReqs(ids: seq<nat>, lens: seq<int>, rems: seq<int>): (r: seq<Req>)
    requires |ids| == |lens| == |rems|
    ensures |r| == |ids| && forall i :: 0 <= i < |r| ==> r[i] == Req(ids[i], lens[i], rems[i])
  {
    seq(|ids|, i requires 0 <= i < |ids| => Req(ids[i], lens[i], rems[i]))
  }

  lemma {:induction false} ZipAppend(ids: seq<nat>, lens: seq<int>, prompts: seq<Req>, r: Req)
    requires |ids| == |lens|
    ensures Zip(ids + [r.id], lens + [r.len]) == Zip(ids, lens) + [Prompt(r.id, r.len)]
    ensures AsPrompts(prompts + [r]) == AsPrompts(prompts) + [Prompt(r.id, r.len)]
  {
  }

  function IdsOf(reqs: seq<Req>): (s: seq<nat>)
    ensures |s| == |reqs| && forall i :: 0 <= i < |s| ==> s[i] == reqs[i].id
  {
    seq(|reqs|, i requires 0 <= i < |reqs| => reqs[i].id)
  }

  function LensOf(reqs: seq<Req>): (s: seq<int>)
    ensures |s| == |reqs| && forall i :: 0 <= i < |s| ==> s[i] == reqs[i].len
  {
    seq(|reqs|, i requires 0 <= i < |reqs| => reqs[i].len)
  }

  function RemsOf(reqs: seq<Req>): (s: seq<int>)
    ensures |s| == |reqs| && forall i :: 0 <= i < |s| ==> s[i] == reqs[i].rem
  {
    seq(|reqs|, i requires 0 <= i < |reqs| => reqs[i].rem)
  }

  lemma {:induction false} ZipReqsTail(ids: seq<nat>, lens: seq<int>, rems: seq<int>)
    requires |ids| == |lens| == |rems| && ids != []
    ensures ZipReqs(ids[1..], lens[1..], rems[1..]) == ZipReqs(ids, lens, rems)[1..]
  {
  }

  lemma {:induction false} ZipReqsAppend(reqs: seq<Req>, ids: seq<nat>, lens: seq<int>, rems: seq<int>)
    requires |ids| == |lens| == |rems|
    ensures ZipReqs(IdsOf(reqs) + ids, LensOf(reqs) + lens, RemsOf(reqs) + rems) == reqs + ZipReqs(ids, lens, rems)
  {
  }

  /** Admission from a later point of its own loop. */
  ghost predicate AdmitsTo(
      lim: Limits, run: seq<Req>, wait: seq<Req>, used: int, prompts: seq<Req>, whole: Admission)
    requires lim.blockSize >= 1
  {
    var a := Admit(lim, run, wait, used);
    whole == Admission(a.run, a.wait, prompts + a.prompts)
  }

  lemma {:induction false} AdmitsToNext(
      lim: Limits, run: seq<Req>, wait: seq<Req>, used: int, prompts: seq<Req>, whole: Admission)
    returns (run': seq<Req>, used': int, prompts': seq<Req>)
    requires lim.blockSize >= 1 && CanAdmit(lim, run, wait, used)
    requires AdmitsTo(lim, run, wait, used, prompts, whole)
    ensures run' == Entered(run, wait[0]) && prompts' == prompts + [wait[0]]
    ensures used' == used + (if Started(wait[0]).rem == 0 then 0 else CeilDiv(wait[0].len, lim.blockSize))
    ensures AdmitsTo(lim, run', wait[1..], used', prompts', whole)
    ensures used' - Blocks(run', 0, lim.blockSize) == used - Blocks(run, 0, lim.blockSize)
  {
    run', prompts' := Entered(run, wait[0]), prompts + [wait[0]];
    used' := used + (if Started(wait[0]).rem == 0 then 0 else CeilDiv(wait[0].len, lim.blockSize));
    AdmitUnfolds(lim, run, wait, used);
    BlocksAppend(run, Started(wait[0]), 0, lim.blockSize);
    var rest := Admit(lim, run', wait[1..], used');
    assert prompts + ([wait[0]] + rest.prompts) == prompts' + rest.prompts;
  }

  /** Where the packing loop stands: prefilling the open batch and the rest leads to `final`. */
  ghost predicate PacksTo(tr: Trace, open: seq<Prompt>, rest: seq<Prompt>, budget: int, final: Trace) {
    && BatchesFor(Greedy(open, rest, budget), |tr.progress|)
    && PrefillAll(tr, Greedy(open, rest, budget)) == final
  }

  lemma {:induction false} PacksToClosed(tr: Trace, open: seq<Prompt>, rest: seq<Prompt>, budget: int, final: Trace)
    requires PacksTo(tr, open, rest, budget, final) && open != [] && InRange(Ids(open), |tr.progress|)
    requires rest != [] && !Fits(open + [rest[0]], budget)
    ensures PacksTo(Prefill(tr, open), [rest[0]], rest[1..], budget, final)
  {
    var bs, tail := Greedy(open, rest, budget), Greedy([rest[0]], rest[1..], budget);
    assert bs[0] == open && bs[1..] == tail;
    assert forall i :: 0 <= i < |tail| ==> tail[i] == bs[i + 1];
  }

  lemma {:induction false} PacksToLast(tr: Trace, open: seq<Prompt>, budget: int, final: Trace)
    requires PacksTo(tr, open, [], budget, final) && open != [] && InRange(Ids(open), |tr.progress|)
    ensures Prefill(tr, open) == final
  {
    assert [open][1..] == [];
    assert PrefillAll(tr, [open]) == PrefillAll(Prefill(tr, open), []);
  }

  lemma {:induction false} ReplacedSlice<T>(s: seq<T>, from: nat, mid: seq<T>, n: nat)
    requires from + |mid| <= n <= |s|
    ensures var s' := s[..from] + mid + s[from + |mid|..];
            s'[from..n] == mid + s[from + |mid|..n] && s'[from..] == mid + s[from + |mid|..] && s'[n..] == s[n..]
  {
  }

  function Sum(s: seq<int>): int {
    if s == [] then 0 else Sum(s[..|s| - 1]) + s[|s| - 1]
  }

  /** Position of the first value over the limit, or the length if there is none. */
  function FirstAbove(s: seq<int>, limit: int, i: nat): (k: nat)
    requires i <= |s|
    ensures i <= k <= |s|
    decreases |s| - i
  {
    if i == |s| || s[i] > limit then i else FirstAbove(s, limit, i + 1)
  }

  /** Positions of the requests with tokens left. */
  function NonZero(run: seq<Req>): (at: seq<nat>)
    ensures |at| <= |run|
    ensures forall k :: 0 <= k < |at| ==> at[k] < |run|
  {
    if run == [] then []
    else NonZero(run[..|run| - 1]) + (if run[|run| - 1].rem != 0 then [|run| - 1] else [])
  }

  lemma {:induction false} UnfinishedGathers(run: seq<Req>)
    ensures Unfinished(run) == Gather(run, NonZero(run))
    ensures |Unfinished(run)| == |NonZero(run)|
  {
    if run != [] {
      var front, last := run[..|run| - 1], |run| - 1;
      UnfinishedGathers(front);
      GatheredMore(run, NonZero(front), last);
    }
  }

  lemma {:induction false} GatheredMore(run: seq<Req>, at: seq<nat>, last: nat)
    requires last == |run| - 1 && forall k :: 0 <= k < |at| ==> at[k] < last
    ensures Gather(run[..last], at) == Gather(run, at)
    ensures Gather(run, at + [last]) == Gather(run, at) + [run[last]]
  {
  }

  lemma {:induction false} SumOfNewBlocks(run: seq<Req>, bs: int)
    requires bs >= 1
    ensures Sum(seq(|run|, i requires 0 <= i < |run| => CeilDiv(run[i].len, bs))) == Blocks(run, 1, bs)
  {
    if run != [] {
      var n := |run| - 1;
      var all := seq(|run|, i requires 0 <= i < |run| => CeilDiv(run[i].len, bs));
      var front := seq(n, i requires 0 <= i < n => CeilDiv(run[..n][i].len, bs));
      SumOfNewBlocks(run[..n], bs);
      assert seq(|run[..n]|, i requires 0 <= i < |run[..n]| => CeilDiv(run[..n][i].len, bs)) == front;
      assert all[..n] == front;
    }
  }

  lemma {:induction false} FirstAboveIsKept(lim: Limits, run: seq<Req>, approx: seq<int>, i: nat)
    requires lim.blockSize >= 1 && |approx| == |run| && i <= |run|
    requires forall k :: 0 <= k < |run| ==> approx[k] == ApproxBlocks(lim, run, k)
    ensures FirstAbove(approx, lim.maxBlocks, i) == KeptFrom(lim, run, i)
    decreases |run| - i
  {
    if i < |run| && approx[i] <= lim.maxBlocks {
      FirstAboveIsKept(lim, run, approx, i + 1);
    }
  }

  class Scheduler {
    const lim: Limits
    const runId: array<nat>
    const runLen: array<int>
    const runRem: array<int>
    const inpLens: array<int>
    const outLens: array<int>
    var runNum: nat
    var seqIds: seq<nat>
    var pointer: nat
    var blockUsed: int
    var unfinished: int
    var iter: nat
    var progress: seq<seq<int>>
    var isPrefill: seq<bool>
    var prefillLogs: seq<PrefillLog>
    var validLogs: seq<ValidLog>
    var logs: seq<DecodeLog>

    ghost predicate Valid()
      reads this
    {
      && lim.Valid()
      && runId.Length == runLen.Length == runRem.Length == lim.maxSeqs
      && inpLens.Length == outLens.Length == |progress|
      && runLen != runRem && inpLens != outLens
      && runLen != inpLens && runLen != outLens && runRem != inpLens && runRem != outLens
      && runNum <= lim.maxSeqs
      && runNum <= pointer <= |seqIds| <= inpLens.Length
      && iter == |isPrefill|
    }

    /** The occupied part of the running table. */
    function Run(): (r: seq<Req>)
      requires Valid()
      reads this, runId, runLen, runRem
      ensures |r| == runNum
    {
      ZipReqs(runId[..runNum], runLen[..runNum], runRem[..runNum])
    }

    /** The requests received and not admitted. */
    ghost function Wait(): (w: seq<Req>)
      requires Valid()
      reads this, inpLens, outLens
      ensures |w| == |seqIds| - pointer
    {
      ZipReqs(seqIds[pointer..], inpLens[pointer..|seqIds|], outLens[pointer..|seqIds|])
    }

    ghost function Trace(): Trace
      reads this
    {
      Traces.Trace(progress, isPrefill, prefillLogs, validLogs, logs)
    }

    ghost function State(): SimState
      requires Valid()
      reads this, runId, runLen, runRem, inpLens, outLens
    {
      SimState(Run(), Wait(), Trace())
    }

    /** Unfinished requests that have not been received yet, by the counter. */
    ghost function Outstanding(): int
      reads this
    {
      unfinished - runNum - (|seqIds| - pointer)
    }

    constructor (lim: Limits, inp: seq<int>, out: seq<int>, ids: seq<nat>)
      requires lim.Valid() && |inp| == |out| && |ids| <= |inp|
      ensures Valid() && this.lim == lim
      ensures fresh(runId) && fresh(runLen) && fresh(runRem) && fresh(inpLens) && fresh(outLens)
      ensures inpLens[..] == inp && outLens[..] == out
      ensures runNum == 0 && pointer == 0 && seqIds == ids && blockUsed == 0 && unfinished == |inp| && iter == 0
      ensures Trace() == Traces.Trace(seq(|inp|, _ => []), [], [], [], [])
    {
      this.lim := lim;
      runId := new nat[lim.maxSeqs](_ => 0);
      runLen := new int[lim.maxSeqs](_ => 0);
      runRem := new int[lim.maxSeqs](_ => 0);
      inpLens := new int[|inp|](i requires 0 <= i < |inp| => inp[i]);
      outLens := new int[|inp|](i requires 0 <= i < |inp| => out[i]);
      runNum, seqIds, pointer, blockUsed, unfinished, iter := 0, ids, 0, 0, |inp|, 0;
      progress := seq(|inp|, _ => []);
      isPrefill, prefillLogs, validLogs, logs := [], [], [], [];
    }

    /** Write the entry behind the running table. */
    method WriteSlot(id: nat, len: int, rem: int)
      requires Valid() && runNum < lim.maxSeqs
      modifies runId, runLen, runRem
      ensures Valid() && Run() == old(Run())
      ensures runId[runNum] == id && runLen[runNum] == len && runRem[runNum] == rem
    {
      runId[runNum] := id;
      runLen[runNum] := len;
      runRem[runNum] := rem;
    }

    method AdvancePointer()
      requires Valid() && pointer < |seqIds|
      modifies this`pointer
      ensures Valid() && pointer == old(pointer) + 1 && Wait() == old(Wait())[1..] && Run() == old(Run())
    {
      ghost var p, n := pointer, |seqIds|;
      pointer := pointer + 1;
      ZipReqsTail(seqIds[p..], inpLens[p..n], outLens[p..n]);
      assert seqIds[p..][1..] == seqIds[p + 1..] && inpLens[p..n][1..] == inpLens[p + 1..n]
             && outLens[p..n][1..] == outLens[p + 1..n];
    }

    /** Move the head of the waiting list into the running table, unless its prefill finishes it. */
    method AdmitHead()
      requires Valid() && pointer < |seqIds| && runNum < lim.maxSeqs
      modifies this`runNum, this`pointer, this`blockUsed, this`unfinished, runId, runLen, runRem
      ensures Valid() && Wait() == old(Wait())[1..] && pointer == old(pointer) + 1
      ensures Run() == Entered(old(Run()), old(Wait())[0])
      ensures blockUsed == old(blockUsed)
              + (if Started(old(Wait())[0]).rem == 0 then 0 else CeilDiv(old(Wait())[0].len, lim.blockSize))
      ensures Outstanding() == old(Outstanding())
    {
      ghost var run, wait := Run(), Wait();
      WriteSlot(seqIds[pointer], inpLens[pointer] + 1, outLens[pointer] - 1);
      assert Req(runId[runNum], runLen[runNum], runRem[runNum]) == Started(wait[0]);
      if runRem[runNum] == 0 {
        unfinished := unfinished - 1;
        AdvancePointer();
      } else {
        blockUsed := blockUsed + CeilDiv(inpLens[pointer], lim.blockSize);
        AdvancePointer();
        runNum := runNum + 1;
        assert Run() == run + [Started(wait[0])];
      }
    }

    /** The admission loop. */
    method AdmitWaiting() returns (promptIds: seq<nat>, promptLens: seq<int>)
      requires Valid()
      modifies this`runNum, this`pointer, this`blockUsed, this`unfinished, runId, runLen, runRem
      ensures Valid() && |promptIds| == |promptLens|
      ensures var a := Admit(lim, old(Run()), old(Wait()), old(blockUsed));
              Run() == a.run && Wait() == a.wait && Zip(promptIds, promptLens) == AsPrompts(a.prompts)
      ensures Outstanding() == old(Outstanding())
      ensures blockUsed - Blocks(Run(), 0, lim.blockSize) == old(blockUsed - Blocks(Run(), 0, lim.blockSize))
    {
      promptIds, promptLens := [], [];
      ghost var prompts: seq<Req> := [];
      ghost var run, wait, used := Run(), Wait(), blockUsed;
      ghost var whole := Admit(lim, run, wait, used);
      ghost var slack := used - Blocks(run, 0, lim.blockSize);
      while pointer < |seqIds| && EnoughCache(lim, blockUsed, 1) && runNum < lim.maxSeqs
        invariant Valid() && |promptIds| == |promptLens|
        invariant Run() == run && Wait() == wait && blockUsed == used
        invariant Zip(promptIds, promptLens) == AsPrompts(prompts)
        invariant Outstanding() == old(Outstanding())
        invariant used - Blocks(run, 0, lim.blockSize) == slack
        invariant AdmitsTo(lim, run, wait, used, prompts, whole)
        decreases |seqIds| - pointer
      {
        if !EnoughCache(lim, blockUsed, inpLens[pointer]) {
          break;
        }
        ZipAppend(promptIds, promptLens, prompts, wait[0]);
        promptLens := promptLens + [inpLens[pointer]];
        promptIds := promptIds + [seqIds[pointer]];
        AdmitHead();
        run, used, prompts := AdmitsToNext(lim, run, wait, used, prompts, whole);
        wait := wait[1..];
      }
      assert prompts + [] == prompts;
    }

    /** Record iterations start..end for the listed requests. */
    method StoreInferState(start: int, end: int, ids: seq<nat>)
      requires InRange(ids, |progress|)
      modifies this`progress
      ensures progress == StoreAll(old(progress), ids, start, end)
    {
      for i := 0 to |ids|
        invariant |progress| == |old(progress)|
        invariant progress == StoreAll(old(progress), ids[..i], start, end)
      {
        assert ids[..i + 1][..i] == ids[..i];
        progress := progress[ids[i] := AddRange(progress[ids[i]], start, end)];
      }
      assert ids[..|ids|] == ids;
    }

    /** Log and record the prefill step of one batch. */
    method PrefillStep(batchIds: seq<nat>, batchLens: seq<int>)
      requires Valid() && |batchIds| == |batchLens| > 0 && InRange(batchIds, |progress|)
      modifies this`progress, this`iter, this`isPrefill, this`prefillLogs, this`validLogs
      ensures Valid() && Trace() == Prefill(old(Trace()), Zip(batchIds, batchLens))
    {
      var batch := Zip(batchIds, batchLens);
      assert Ids(batch) == batchIds;
      prefillLogs := prefillLogs + [PrefillLogOf(batch)];
      validLogs := validLogs + [ValidLogOf(batch, progress)];
      StoreInferState(iter, iter, batchIds);
      iter := iter + 1;
      isPrefill := isPrefill + [true];
    }

    /** Add one prompt to the open batch, or close the batch and open a new one. */
    method PackNext(ids: seq<nat>, lens: seq<int>, p: Prompt, ghost rest: seq<Prompt>, ghost final: Trace)
      returns (ids': seq<nat>, lens': seq<int>)
      requires Valid() && |ids| == |lens| > 0 && InRange(ids, |progress|) && p.id < |progress|
      requires rest != [] && rest[0] == p && PacksTo(Trace(), Zip(ids, lens), rest, lim.maxTokens, final)
      modifies this`progress, this`iter, this`isPrefill, this`prefillLogs, this`validLogs
      ensures Valid() && |ids'| == |lens'| > 0 && InRange(ids', |progress|) && |progress| == |old(progress)|
      ensures PacksTo(Trace(), Zip(ids', lens'), rest[1..], lim.maxTokens, final)
    {
      var open := Zip(ids, lens);
      assert Ids(open) == ids;
      assert Zip(ids + [p.id], lens + [p.len]) == open + [p];
      if Fits(open + [p], lim.maxTokens) {
        return ids + [p.id], lens + [p.len];
      }
      PacksToClosed(Trace(), open, rest, lim.maxTokens, final);
      PrefillStep(ids, lens);
      assert Zip([p.id], [p.len]) == [p];
      return [p.id], [p.len];
    }

    /** Pack the admitted prompts into prefill steps, in order. */
    method UpdatePrefillLogs(promptIds: seq<nat>, promptLens: seq<int>)
      requires Valid() && |promptIds| == |promptLens| && InRange(promptIds, |progress|)
      requires Pack(Zip(promptIds, promptLens), lim.maxTokens).Batches?
      modifies this`progress, this`iter, this`isPrefill, this`prefillLogs, this`validLogs
      ensures Valid()
      ensures var bs := Pack(Zip(promptIds, promptLens), lim.maxTokens).batches;
              BatchesFor(bs, |old(progress)|) && Trace() == PrefillAll(old(Trace()), bs)
    {
      if |promptIds| == 0 {
        return;
      }
      ghost var all := Zip(promptIds, promptLens);
      GreedyBatchesFor([all[0]], all[1..], lim.maxTokens, |progress|);
      ghost var final := PrefillAll(Trace(), Greedy([all[0]], all[1..], lim.maxTokens));
      var ids, lens := [promptIds[0]], [promptLens[0]];
      assert Zip(ids, lens) == [all[0]];
      for i := 1 to |promptIds|
        invariant Valid() && |ids| == |lens| > 0 && InRange(ids, |progress|) && |progress| == |old(progress)|
        invariant PacksTo(Trace(), Zip(ids, lens), all[i..], lim.maxTokens, final)
      {
        assert all[i..][0] == Prompt(promptIds[i], promptLens[i]) && all[i..][1..] == all[i + 1..];
        ids, lens := PackNext(ids, lens, Prompt(promptIds[i], promptLens[i]), all[i..], final);
      }
      assert all[|promptIds|..] == [] && Ids(Zip(ids, lens)) == ids;
      PacksToLast(Trace(), Zip(ids, lens), lim.maxTokens, final);
      PrefillStep(ids, lens);
    }

    /** How many running requests can stay, each with room for one more token. */
    method KeptCount() returns (kept: nat)
      requires Valid() && runNum > 0
      ensures kept == Kept(lim, Run())
    {
      var run, bs, n := Run(), lim.blockSize, runNum;
      var newBlocks := seq(n, i requires 0 <= i < n => CeilDiv(run[i].len, bs));
      var approx := seq(n, i requires 0 <= i < n => CeilDiv(run[i].len - 1, bs) + 1 + Sum(newBlocks[..i]));
      forall i | 0 <= i < n ensures approx[i] == ApproxBlocks(lim, run, i) {
        SumOfNewBlocks(run[..i], bs);
        assert newBlocks[..i] == seq(|run[..i]|, j requires 0 <= j < |run[..i]| => CeilDiv(run[..i][j].len, bs));
      }
      FirstAboveIsKept(lim, run, approx, 0);
      kept := FirstAbove(approx, lim.maxBlocks, 0);
    }

    /** Overwrite part of the waiting arrays. */
    method PutBack(from: nat, reqs: seq<Req>)
      requires Valid() && from + |reqs| <= |seqIds|
      modifies this`seqIds, inpLens, outLens
      ensures Valid()
      ensures var ids, n := old(seqIds), from + |reqs|; seqIds == ids[..from] + IdsOf(reqs) + ids[n..]
      ensures var lens, n := old(inpLens[..]), from + |reqs|; inpLens[..] == lens[..from] + LensOf(reqs) + lens[n..]
      ensures var rems, n := old(outLens[..]), from + |reqs|; outLens[..] == rems[..from] + RemsOf(reqs) + rems[n..]
    {
      seqIds := seqIds[..from] + IdsOf(reqs) + seqIds[from + |reqs|..];
      forall i | 0 <= i < |reqs| {
        inpLens[from + i] := reqs[i].len;
      }
      forall i | 0 <= i < |reqs| {
        outLens[from + i] := reqs[i].rem;
      }
    }

    /** Put requests back in front of the waiting list. */
    method ReturnToWaiting(reqs: seq<Req>)
      requires Valid() && runNum + |reqs| <= pointer
      modifies this`pointer, this`seqIds, inpLens, outLens
      ensures Valid() && |seqIds| == |old(seqIds)| && pointer == old(pointer) - |reqs|
      ensures Wait() == reqs + old(Wait())
      ensures inpLens[|seqIds|..] == old(inpLens[|seqIds|..]) && outLens[|seqIds|..] == old(outLens[|seqIds|..])
    {
      ghost var ids, lens, rems, p, n := seqIds, inpLens[..], outLens[..], pointer, |seqIds|;
      var from := pointer - |reqs|;
      PutBack(from, reqs);
      pointer := from;
      ReplacedSlice(ids, from, IdsOf(reqs), n);
      ReplacedSlice(lens, from, LensOf(reqs), n);
      ReplacedSlice(rems, from, RemsOf(reqs), n);
      ZipReqsAppend(reqs, ids[p..], lens[p..n], rems[p..n]);
      assert Wait() == ZipReqs(seqIds[from..], inpLens[..][from..n], outLens[..][from..n]);
    }

    /** Preempt a suffix of the running table so that the rest can go on: it goes back to the
        front of the waiting list, in order and at its current lengths. */
    method KillForCacheSpace()
      requires Valid() && runNum > 0
      modifies this`runNum, this`pointer, this`seqIds, this`blockUsed, inpLens, outLens
      ensures Valid() && |seqIds| == |old(seqIds)|
      ensures var k := Kept(lim, old(Run()));
              && Run() == old(Run())[..k]
              && Wait() == old(Run())[k..] + old(Wait())
      ensures pointer - runNum == old(pointer - runNum)
      ensures blockUsed == Blocks(Run(), 0, lim.blockSize)
      ensures inpLens[|seqIds|..] == old(inpLens[|seqIds|..]) && outLens[|seqIds|..] == old(outLens[|seqIds|..])
    {
      var run := Run();
      var kept := KeptCount();
      runNum := kept;
      assert Run() == run[..kept];
      blockUsed := Blocks(run[..kept], 0, lim.blockSize);
      ReturnToWaiting(run[kept..]);
    }

    method AdvanceTable(k: nat)
      requires Valid()
      modifies runLen, runRem
      ensures Run() == Advance(old(Run()), k)
    {
      ghost var run := Run();
      forall i | 0 <= i < runNum {
        runLen[i] := runLen[i] + k;
      }
      forall i | 0 <= i < runNum {
        runRem[i] := runRem[i] - k;
      }
      assert Run() == Advance(run, k);
    }

    /** k decode steps of the whole running table. */
    method DecodeSteps(k: nat)
      requires Valid() && runNum > 0 && InRange(Ids(AsPrompts(Run())), |progress|)
      modifies this`progress, this`iter, this`isPrefill, this`logs, runLen, runRem
      ensures Valid() && Run() == Advance(old(Run()), k)
      ensures Trace() == Decode(old(Trace()), old(Run()), k)
    {
      ghost var before := Trace();
      var run := Run();
      logs := logs + seq(k, i => DecodeLogOf(run, i));
      StoreInferState(iter, iter + k - 1, Ids(AsPrompts(run)));
      isPrefill := isPrefill + seq(k, _ => false);
      iter := iter + k;
      assert Trace() == Decode(before, run, k);
      AdvanceTable(k);
    }

    /** Move the entries at the given places to the front of the table. */
    method Compact(at: seq<nat>)
      requires Valid() && |at| <= runNum && forall k :: 0 <= k < |at| ==> at[k] < runNum
      modifies runId, runLen, runRem
      ensures Valid()
      ensures ZipReqs(runId[..|at|], runLen[..|at|], runRem[..|at|]) == Gather(old(Run()), at)
    {
      ghost var run := Run();
      forall k | 0 <= k < |at| {
        runId[k] := runId[at[k]];
      }
      forall k | 0 <= k < |at| {
        runLen[k] := runLen[at[k]];
      }
      forall k | 0 <= k < |at| {
        runRem[k] := runRem[at[k]];
      }
    }

    /** Compact the requests that still have tokens to generate to the front of the table. */
    method RemoveFinished()
      requires Valid()
      modifies this`runNum, this`unfinished, this`blockUsed, runId, runLen, runRem
      ensures Valid() && Run() == Unfinished(old(Run()))
      ensures blockUsed == Blocks(Run(), 0, lim.blockSize)
      ensures Outstanding() == old(Outstanding())
    {
      var run := Run();
      var at := NonZero(run);
      UnfinishedGathers(run);
      Compact(at);
      unfinished := unfinished - (runNum - |at|);
      runNum := |at|;
      assert Run() == Unfinished(run);
      blockUsed := Blocks(Run(), 0, lim.blockSize);
    }

    /** Admit, then prefill what was admitted. */
    method AdmitAndPrefill() returns (count: nat)
      requires Valid() && CanPrefill(lim, State()) && blockUsed == Blocks(Run(), 0, lim.blockSize)
      modifies this`runNum, this`pointer, this`blockUsed, this`unfinished, runId, runLen, runRem
      modifies this`progress, this`iter, this`isPrefill, this`prefillLogs, this`validLogs
      ensures Valid() && Outstanding() == old(Outstanding()) && blockUsed == Blocks(Run(), 0, lim.blockSize)
      ensures State() == Prefilling(lim, old(State()))
      ensures count == |Admitting(lim, old(State())).prompts|
    {
      ghost var a := Admitting(lim, State());
      var ids, lens := AdmitWaiting();
      assert |AsPrompts(a.prompts)| == |ids| && Ids(AsPrompts(a.prompts)) == ids;
      UpdatePrefillLogs(ids, lens);
      count := |ids|;
    }

    /** k decode steps, then compaction. */
    method DecodeAndCompact(k: nat)
      requires Valid() && CanDecode(State())
      modifies this`runNum, this`blockUsed, this`unfinished, this`progress, this`iter, this`isPrefill, this`logs
      modifies runId, runLen, runRem
      ensures Valid() && Outstanding() == old(Outstanding()) && blockUsed == Blocks(Run(), 0, lim.blockSize)
      ensures State() == Decoding(old(State()), k)
    {
      DecodeSteps(k);
      RemoveFinished();
    }
  }

  lemma {:induction false} GreedyBatchesFor(cur: seq<Prompt>, rest: seq<Prompt>, budget: int, n: nat)
    requires cur != [] && InRange(Ids(cur), n) && InRange(Ids(rest), n)
    ensures BatchesFor(Greedy(cur, rest, budget), n)
    decreases |rest|
  {
    if rest != [] {
      assert Ids(rest)[0] == rest[0].id;
      assert forall i :: 0 <= i < |rest[1..]| ==> Ids(rest[1..])[i] == Ids(rest)[i + 1];
      if Fits(cur + [rest[0]], budget) {
        assert Ids(cur + [rest[0]]) == Ids(cur) + [rest[0].id];
        GreedyBatchesFor(cur + [rest[0]], rest[1..], budget, n);
      } else {
        GreedyBatchesFor([rest[0]], rest[1..], budget, n);
      }
    }
  }
}
