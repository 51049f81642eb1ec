/** What the simulator records: per-request iteration ranges and one log entry per iteration. */
module Traces {
  import opened Lists
  import opened Requests
  import opened Ranges
  import opened Packing

  /** A prefill step: prompts, prompt tokens, attention sum, longest prompt. */
  datatype PrefillLog = PrefillLog(seqs: int, tokens: int, attention: int, maxLen: int)

  /** The part of a step that is not recomputation: tokens produced or first processed, and their
      context sum. */
  datatype ValidLog = ValidLog(seqs: int, tokens: int)

  /** A decode step: requests, their total length (twice), longest request. */
  datatype DecodeLog = DecodeLog(seqs: int, tokens: int, context: int, maxLen: int)

  datatype Trace = Trace(
    progress: seq<seq<int>>,
    steps: seq<bool>,  // is the iteration a prefill step?
    prefills: seq<PrefillLog>,
    valids: seq<ValidLog>,
    decodes: seq<DecodeLog>)

  // ----- sums over a batch and over all requests

  function SumBatch(c: Prompt -> int, batch: seq<Prompt>): int {
    if batch == [] then 0 else SumBatch(c, batch[..|batch| - 1]) + c(batch[|batch| - 1])
  }

  function SumReq(f: (nat, seq<int>) -> int, progress: seq<seq<int>>): int {
    if progress == [] then 0
    else SumReq(f, progress[..|progress| - 1]) + f(|progress| - 1, progress[|progress| - 1])
  }

  lemma {:induction false} SumBatchSame(c: Prompt -> int, d: Prompt -> int, batch: seq<Prompt>)
    requires forall i :: 0 <= i < |batch| ==> c(batch[i]) == d(batch[i])
    ensures SumBatch(c, batch) == SumBatch(d, batch)
  {
    if batch != [] {
      SumBatchSame(c, d, batch[..|batch| - 1]);
    }
  }

  lemma {:induction false} SumReqSame(
      f: (nat, seq<int>) -> int, g: (nat, seq<int>) -> int, p: seq<seq<int>>, q: seq<seq<int>>)
    requires |p| == |q| && forall i :: 0 <= i < |p| ==> f(i, p[i]) == g(i, q[i])
    ensures SumReq(f, p) == SumReq(g, q)
  {
    if p != [] {
      SumReqSame(f, g, p[..|p| - 1], q[..|q| - 1]);
    }
  }

  lemma {:induction false} SumReqUpdate(f: (nat, seq<int>) -> int, p: seq<seq<int>>, i: nat, r: seq<int>)
    requires i < |p|
    ensures SumReq(f, p[i := r]) == SumReq(f, p) - f(i, p[i]) + f(i, r)
  {
    var last := |p| - 1;
    if i < last {
      SumReqUpdate(f, p[..last], i, r);
      assert p[i := r][..last] == p[..last][i := r];
    } else {
      assert p[i := r][..last] == p[..last];
    }
  }

  // ----- recording

  function StoreAll(progress: seq<seq<int>>, ids: seq<nat>, start: int, end: int): (p: seq<seq<int>>)
    requires InRange(ids, |progress|)
    ensures |p| == |progress|
  {
    if ids == [] then progress
    else
      var p := StoreAll(progress, ids[..|ids| - 1], start, end);
      var i := ids[|ids| - 1];
      p[i := AddRange(p[i], start, end)]
  }

  /** Each listed request gets the iterations once; nobody else is touched. */
  lemma {:induction false} StoreAllAt(progress: seq<seq<int>>, ids: seq<nat>, start: int, end: int, i: nat)
    requires InRange(ids, |progress|) && Distinct(ids) && i < |progress|
    ensures StoreAll(progress, ids, start, end)[i]
            == if i in ids then AddRange(progress[i], start, end) else progress[i]
  {
    if ids != [] {
      var front := ids[..|ids| - 1];
      StoreAllAt(progress, front, start, end, i);
      StoreAllAt(progress, front, start, end, ids[|ids| - 1]);
      assert i in ids <==> i in front || i == ids[|ids| - 1];
    }
  }

  lemma {:induction false} StoreAllMerges(progress: seq<seq<int>>, ids: seq<nat>, start: int, end: int)
    requires InRange(ids, |progress|) && Distinct(ids) && start <= end
    ensures StoreAll(StoreAll(progress, ids, start, end), ids, end + 1, end + 1)
            == StoreAll(progress, ids, start, end + 1)
  {
    var once := StoreAll(progress, ids, start, end);
    var twice, merged := StoreAll(once, ids, end + 1, end + 1), StoreAll(progress, ids, start, end + 1);
    forall i | 0 <= i < |progress| ensures twice[i] == merged[i] {
      StoreAllAt(progress, ids, start, end, i);
      StoreAllAt(once, ids, end + 1, end + 1, i);
      StoreAllAt(progress, ids, start, end + 1, i);
      AddRangeMerges(progress[i], start, end);
    }
  }

  function Ids(batch: seq<Prompt>): (ids: seq<nat>)
    ensures |ids| == |batch| && forall i :: 0 <= i < |ids| ==> ids[i] == batch[i].id
  {
    seq(|batch|, i requires 0 <= i < |batch| => batch[i].id)
  }

  /** How a sum over all requests changes when the batch takes part in iterations start..end. */
  lemma {:induction false} StoreAllSum(
      g: (nat, seq<int>) -> int, progress: seq<seq<int>>, batch: seq<Prompt>, start: int, end: int, c: Prompt -> int)
    requires InRange(Ids(batch), |progress|) && Distinct(Ids(batch))
    requires forall i :: 0 <= i < |batch| ==>
      g(batch[i].id, AddRange(progress[batch[i].id], start, end)) == g(batch[i].id, progress[batch[i].id]) + c(batch[i])
    ensures SumReq(g, StoreAll(progress, Ids(batch), start, end)) == SumReq(g, progress) + SumBatch(c, batch)
  {
    if batch != [] {
      var n := |batch| - 1;
      var front := batch[..n];
      assert Ids(batch)[..n] == Ids(front);
      StoreAllSum(g, progress, front, start, end, c);
      var p := StoreAll(progress, Ids(front), start, end);
      StoreAllAt(progress, Ids(front), start, end, batch[n].id);
      assert batch[n].id !in Ids(front);
      SumReqUpdate(g, p, batch[n].id, AddRange(p[batch[n].id], start, end));
    }
  }

  // ----- log entries

  function Len(b: Prompt): int {
    b.len
  }

  function Attention(b: Prompt): int {
    (1 + b.len) * b.len
  }

  /** Prompt tokens beyond the first of a request that has not run before. */
  function FirstTokens(progress: seq<seq<int>>): Prompt -> int {
    (b: Prompt) => if b.id < |progress| && |progress[b.id]| == 0 then b.len - 1 else 0
  }

  function FirstContext(progress: seq<seq<int>>): Prompt -> int {
    (b: Prompt) => if b.id < |progress| && |progress[b.id]| == 0 then b.len * (b.len - 1) else 0
  }

  function PrefillLogOf(batch: seq<Prompt>): PrefillLog
    requires batch != []
  {
    PrefillLog(|batch|, SumBatch(Len, batch), SumBatch(Attention, batch), MaxLen(batch))
  }

  function ValidLogOf(batch: seq<Prompt>, progress: seq<seq<int>>): ValidLog {
    ValidLog(|batch| + SumBatch(FirstTokens(progress), batch),
             SumBatch(Len, batch) + SumBatch(FirstContext(progress), batch) / 2)
  }

  /** One prefill iteration. */
  function Prefill(tr: Trace, batch: seq<Prompt>): Trace
    requires batch != [] && InRange(Ids(batch), |tr.progress|)
  {
    Trace(StoreAll(tr.progress, Ids(batch), |tr.steps|, |tr.steps|),
          tr.steps + [true],
          tr.prefills + [PrefillLogOf(batch)],
          tr.valids + [ValidLogOf(batch, tr.progress)],
          tr.decodes)
  }

  ghost predicate BatchesFor(batches: seq<seq<Prompt>>, n: nat) {
    forall i :: 0 <= i < |batches| ==> batches[i] != [] && InRange(Ids(batches[i]), n)
  }

  function PrefillAll(tr: Trace, batches: seq<seq<Prompt>>): (r: Trace)
    requires BatchesFor(batches, |tr.progress|)
    ensures |r.progress| == |tr.progress|
    decreases |batches|
  {
    if batches == [] then tr else PrefillAll(Prefill(tr, batches[0]), batches[1..])
  }

  function AsPrompts(run: seq<Req>): (b: seq<Prompt>)
    ensures |b| == |run| && forall i :: 0 <= i < |b| ==> b[i] == Prompt(run[i].id, run[i].len)
  {
    seq(|run|, i requires 0 <= i < |run| => Prompt(run[i].id, run[i].len))
  }

  /** The decode log entry of step i counted from the current lengths. */
  function DecodeLogOf(run: seq<Req>, i: int): DecodeLog
    requires run != []
  {
    var tot := SumBatch(Len, AsPrompts(run));
    DecodeLog(|run|, tot + |run| * i, tot + |run| * i, MaxLen(AsPrompts(run)) + i)
  }

  /** k decode iterations logged at once. */
  function Decode(tr: Trace, run: seq<Req>, k: nat): Trace
    requires run != [] && InRange(Ids(AsPrompts(run)), |tr.progress|)
  {
    var t := |tr.steps|;
    Trace(StoreAll(tr.progress, Ids(AsPrompts(run)), t, t + k - 1),
          tr.steps + seq(k, _ => false),
          tr.prefills, tr.valids,
          tr.decodes + seq(k, i => DecodeLogOf(run, i)))
  }

  lemma {:induction false} SumLenAdvance(run: seq<Req>, k: int)
    ensures SumBatch(Len, AsPrompts(Advance(run, k))) == SumBatch(Len, AsPrompts(run)) + |run| * k
  {
    if run == [] {
      assert 0 * k == 0;
    } else {
      var n := |run| - 1;
      SumLenAdvance(run[..n], k);
      assert AsPrompts(Advance(run, k))[..n] == AsPrompts(Advance(run[..n], k));
      assert AsPrompts(run)[..n] == AsPrompts(run[..n]);
      MulNext(n, k);
    }
  }

  lemma {:induction false} MaxLenAdvance(run: seq<Req>, k: int)
    requires run != []
    ensures MaxLen(AsPrompts(Advance(run, k))) == MaxLen(AsPrompts(run)) + k
  {
    if |run| > 1 {
      var n := |run| - 1;
      MaxLenAdvance(run[..n], k);
      assert AsPrompts(Advance(run, k))[..n] == AsPrompts(Advance(run[..n], k));
      assert AsPrompts(run)[..n] == AsPrompts(run[..n]);
    }
  }

  /** Logging a jump in one go is logging its steps one at a time, each at the current lengths. */
  lemma {:induction false} DecodeUnrolls(tr: Trace, run: seq<Req>, k: nat)
    requires run != [] && k >= 1
    requires InRange(Ids(AsPrompts(run)), |tr.progress|) && Distinct(Ids(AsPrompts(run)))
    ensures Ids(AsPrompts(Advance(run, k))) == Ids(AsPrompts(run))
    ensures Decode(Decode(tr, run, k), Advance(run, k), 1) == Decode(tr, run, k + 1)
  {
    var t, next := |tr.steps|, Advance(run, k);
    assert Ids(AsPrompts(next)) == Ids(AsPrompts(run));
    StoreAllMerges(tr.progress, Ids(AsPrompts(run)), t, t + k - 1);
    SumLenAdvance(run, k);
    MaxLenAdvance(run, k);
    assert DecodeLogOf(next, 0) == DecodeLogOf(run, k);
    var one, all := Decode(Decode(tr, run, k), next, 1), Decode(tr, run, k + 1);
    assert |Decode(tr, run, k).steps| == t + k;
    assert one.progress == all.progress;
    assert one.steps == all.steps;
    assert one.decodes == all.decodes;
  }
}
