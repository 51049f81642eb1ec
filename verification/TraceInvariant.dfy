/** What every recorded trace satisfies, whatever was admitted, preempted or finished on the way. */
module TraceInvariant {
  import opened Requests
  import opened Ranges
  import opened Traces

  /** The requests to schedule, with their original lengths. */
  datatype Job = Job(inp: seq<int>, out: seq<int>, lim: Limits) {
    ghost predicate Valid() {
      lim.Valid() && |inp| == |out|
      && forall i :: 0 <= i < |inp| ==> inp[i] >= 1 && out[i] >= 1
    }
  }

  // ----- reading per-request quantities off the ranges

  /** Length of a request (prompt plus generated) when `done` iterations are done, not counting
      the token still to be processed: zero before the first. */
  function ValidLen(inp: int, done: int): int {
    if done > 0 then inp + done - 1 else 0
  }

  function TokensAt(inp: seq<int>, stop: int): (nat, seq<int>) -> int {
    (i: nat, r: seq<int>) => if i < |inp| then ValidLen(inp[i], FinishedBy(r, stop)) else 0
  }

  function ContextAt(inp: seq<int>, stop: int): (nat, seq<int>) -> int {
    (i: nat, r: seq<int>) =>
      if i < |inp| then
        var l := ValidLen(inp[i], FinishedBy(r, stop));
        (l + 1) * l / 2
      else 0
  }

  /** Length at which a request enters iteration t. */
  function LenAt(inp: seq<int>, i: nat, r: seq<int>, t: int): int {
    if i < |inp| then inp[i] + FinishedBy(r, t - 1) else 0
  }

  function SizeAt(t: int): (nat, seq<int>) -> int {
    (i: nat, r: seq<int>) => if Attends(r, t) then 1 else 0
  }

  function LengthsAt(inp: seq<int>, t: int): (nat, seq<int>) -> int {
    (i: nat, r: seq<int>) => if Attends(r, t) then LenAt(inp, i, r, t) else 0
  }

  function AttentionAt(inp: seq<int>, t: int): (nat, seq<int>) -> int {
    (i: nat, r: seq<int>) => if Attends(r, t) then (1 + LenAt(inp, i, r, t)) * LenAt(inp, i, r, t) else 0
  }

  /** Cache blocks in use after iteration t, over the requests that take part in it. */
  function BlocksAt(inp: seq<int>, bs: int, t: int): (nat, seq<int>) -> int
    requires bs >= 1
  {
    (i: nat, r: seq<int>) => if Attends(r, t) then CeilDiv(LenAt(inp, i, r, t), bs) else 0
  }

  ghost predicate LongestAt(inp: seq<int>, progress: seq<seq<int>>, t: int, m: int) {
    && (forall i :: 0 <= i < |progress| && Attends(progress[i], t) ==> LenAt(inp, i, progress[i], t) <= m)
    && (exists i :: 0 <= i < |progress| && Attends(progress[i], t) && LenAt(inp, i, progress[i], t) == m)
  }

  // ----- interleaving the logs

  /** Position t holds the next prefill entry when t is a prefill step, else the next decode one. */
  function Interleave(steps: seq<bool>, valids: seq<ValidLog>, decodes: seq<DecodeLog>): seq<ValidLog> {
    if steps == [] then []
    else if steps[|steps| - 1] then
      if valids == [] then []
      else Interleave(steps[..|steps| - 1], valids[..|valids| - 1], decodes) + [valids[|valids| - 1]]
    else
      if decodes == [] then []
      else
        var d := decodes[|decodes| - 1];
        Interleave(steps[..|steps| - 1], valids, decodes[..|decodes| - 1]) + [ValidLog(d.seqs, d.tokens)]
  }

  function Merged(tr: Trace): seq<ValidLog> {
    Interleave(tr.steps, tr.valids, tr.decodes)
  }

  /** Prefill steps before iteration t. */
  function Rank(steps: seq<bool>, t: nat): (n: nat)
    requires t <= |steps|
    ensures n <= t
  {
    if t == 0 then 0 else Rank(steps, t - 1) + (if steps[t - 1] then 1 else 0)
  }

  lemma {:induction false} RankPrefix(a: seq<bool>, b: seq<bool>, t: nat)
    requires t <= |a| <= |b| && b[..|a|] == a
    ensures Rank(a, t) == Rank(b, t)
  {
    if t > 0 {
      RankPrefix(a, b, t - 1);
      assert b[t - 1] == b[..|a|][t - 1];
    }
  }

  lemma {:induction false} RankMonotone(steps: seq<bool>, t: nat, u: nat)
    requires t <= u <= |steps|
    ensures Rank(steps, t) <= Rank(steps, u) && u - t >= Rank(steps, u) - Rank(steps, t)
    decreases u
  {
    if t < u {
      RankMonotone(steps, t, u - 1);
    }
  }

  function CumSeqs(m: seq<ValidLog>, t: nat): int
    requires t <= |m|
  {
    if t == 0 then 0 else CumSeqs(m, t - 1) + m[t - 1].seqs
  }

  function CumTokens(m: seq<ValidLog>, t: nat): int
    requires t <= |m|
  {
    if t == 0 then 0 else CumTokens(m, t - 1) + m[t - 1].tokens
  }

  lemma {:induction false} CumPrefix(m: seq<ValidLog>, e: ValidLog, t: nat)
    requires t <= |m|
    ensures CumSeqs(m + [e], t) == CumSeqs(m, t) && CumTokens(m + [e], t) == CumTokens(m, t)
  {
    if t > 0 {
      CumPrefix(m, e, t - 1);
    }
  }

  // ----- the invariant

  /** One log entry per iteration, filed under the right kind. */
  ghost predicate LogsMatch(tr: Trace) {
    && |tr.valids| == |tr.prefills| == Rank(tr.steps, |tr.steps|)
    && |tr.decodes| == |tr.steps| - Rank(tr.steps, |tr.steps|)
    && |Merged(tr)| == |tr.steps|
  }

  ghost predicate RangesCanonical(tr: Trace) {
    forall i :: 0 <= i < |tr.progress| ==> Canonical(tr.progress[i], |tr.steps|)
  }

  /** Cumulative useful work read off the logs equals the closed form read off the ranges. */
  ghost predicate TotalsMatch(job: Job, tr: Trace) {
    && |Merged(tr)| == |tr.steps|
    && forall t :: 0 <= t <= |tr.steps| ==>
         && CumSeqs(Merged(tr), t) == SumReq(TokensAt(job.inp, t - 1), tr.progress)
         && CumTokens(Merged(tr), t) == SumReq(ContextAt(job.inp, t - 1), tr.progress)
  }

  /** No decode step leaves more cache blocks in use than there are. */
  ghost predicate CacheRespected(job: Job, tr: Trace)
    requires job.lim.blockSize >= 1
  {
    forall t :: 0 <= t < |tr.steps| && !tr.steps[t] ==>
      SumReq(BlocksAt(job.inp, job.lim.blockSize, t), tr.progress) <= job.lim.maxBlocks
  }

  /** A prefill step only ever opens a range. */
  ghost predicate PrefillsOpenRanges(tr: Trace) {
    forall i, t :: 0 <= i < |tr.progress| && 0 <= t < |tr.steps| && tr.steps[t] && Attends(tr.progress[i], t)
      ==> !Attends(tr.progress[i], t - 1)
  }

  /** Every log entry describes exactly the requests whose ranges contain the iteration, at the
      lengths the ranges imply. */
  ghost predicate LogsExact(job: Job, tr: Trace)
    requires LogsMatch(tr)
  {
    forall t :: 0 <= t < |tr.steps| ==> LogExactAt(job, tr, t)
  }

  ghost predicate LogExactAt(job: Job, tr: Trace, t: int)
    requires LogsMatch(tr) && 0 <= t < |tr.steps|
  {
    RankMonotone(tr.steps, t, |tr.steps|);
    RankMonotone(tr.steps, t + 1, |tr.steps|);
    RankMonotone(tr.steps, t, t + 1);
    var k := Rank(tr.steps, t);
    if tr.steps[t] then
      && tr.prefills[k].seqs == SumReq(SizeAt(t), tr.progress)
      && tr.prefills[k].tokens == SumReq(LengthsAt(job.inp, t), tr.progress)
      && tr.prefills[k].attention == SumReq(AttentionAt(job.inp, t), tr.progress)
      && LongestAt(job.inp, tr.progress, t, tr.prefills[k].maxLen)
    else
      && tr.decodes[t - k].seqs == SumReq(SizeAt(t), tr.progress)
      && tr.decodes[t - k].tokens == tr.decodes[t - k].context == SumReq(LengthsAt(job.inp, t), tr.progress)
      && LongestAt(job.inp, tr.progress, t, tr.decodes[t - k].maxLen)
  }

  ghost predicate TraceInv(job: Job, tr: Trace)
    requires job.lim.blockSize >= 1
  {
    && |tr.progress| == |job.inp|
    && RangesCanonical(tr)
    && LogsMatch(tr)
    && TotalsMatch(job, tr)
    && CacheRespected(job, tr)
    && PrefillsOpenRanges(tr)
    && LogsExact(job, tr)
  }
}
