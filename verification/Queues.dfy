/** The running table and the waiting list: admission, preemption, decode and compaction. */
module Queues {
  import opened Requests
  import opened DecodeJump
  import opened TraceInvariant

  // ----- the operations

  /** Room for `tokens` new tokens while keeping one percent of the blocks free. */
  predicate EnoughCache(lim: Limits, used: int, tokens: int)
    requires lim.blockSize >= 1
  {
    100 * (lim.maxBlocks - used - CeilDiv(tokens, lim.blockSize)) >= lim.maxBlocks
  }

  /** A request enters the running table with its first token generated. */
  function Started(r: Req): Req {
    Req(r.id, r.len + 1, r.rem - 1)
  }

  datatype Admission = Admission(run: seq<Req>, wait: seq<Req>, prompts: seq<Req>)

  predicate CanAdmit(lim: Limits, run: seq<Req>, wait: seq<Req>, used: int)
    requires lim.blockSize >= 1
  {
    wait != [] && EnoughCache(lim, used, 1) && |run| < lim.maxSeqs && EnoughCache(lim, used, wait[0].len)
  }

  /** Admit waiting requests in order while there is room; one whose only token comes out of its
      prefill never enters the running table. */
  function Admit(lim: Limits, run: seq<Req>, wait: seq<Req>, used: int): Admission
    requires lim.blockSize >= 1
    decreases |wait|
  {
    if !CanAdmit(lim, run, wait, used) then Admission(run, wait, [])
    else
      var r := wait[0];
      var rest :=
        if Started(r).rem == 0 then Admit(lim, run, wait[1..], used)
        else Admit(lim, run + [Started(r)], wait[1..], used + CeilDiv(r.len, lim.blockSize));
      rest.(prompts := [r] + rest.prompts)
  }

  /** Blocks up to and including running request i if it takes a new block and the ones before it
      hold one more token each. */
  function ApproxBlocks(lim: Limits, run: seq<Req>, i: nat): int
    requires lim.blockSize >= 1 && i < |run|
  {
    Blocks(run[..i], 1, lim.blockSize) + CeilDiv(run[i].len - 1, lim.blockSize) + 1
  }

  /** The first request from position i on whose approximate need is over the limit. */
  function KeptFrom(lim: Limits, run: seq<Req>, i: nat): (k: nat)
    requires lim.blockSize >= 1 && i <= |run|
    ensures i <= k <= |run|
    ensures forall j :: i <= j < k ==> ApproxBlocks(lim, run, j) <= lim.maxBlocks
    ensures k < |run| ==> ApproxBlocks(lim, run, k) > lim.maxBlocks
    decreases |run| - i
  {
    if i == |run| || ApproxBlocks(lim, run, i) > lim.maxBlocks then i else KeptFrom(lim, run, i + 1)
  }

  function Kept(lim: Limits, run: seq<Req>): (k: nat)
    requires lim.blockSize >= 1
    ensures k <= |run|
  {
    KeptFrom(lim, run, 0)
  }

  /** The requests with tokens left to generate, in order. */
  function Unfinished(run: seq<Req>): (u: seq<Req>)
    ensures |u| <= |run|
  {
    if run == [] then []
    else Unfinished(run[..|run| - 1]) + KeepOne(run[|run| - 1])
  }

  function KeepOne(r: Req): seq<Req> {
    if r.rem != 0 then [r] else []
  }

  // ----- the invariant, relative to the number of tokens each request has produced

  ghost predicate InOrder(reqs: seq<Req>, fifo: bool) {
    forall i, j :: 0 <= i < j < |reqs| ==>
      reqs[i].id != reqs[j].id && (fifo ==> reqs[i].id < reqs[j].id)
  }

  /** Tokens are conserved: what a request holds plus what it still owes is what it came with. */
  ghost predicate LinkedAt(job: Job, r: Req, received: nat, done: seq<int>)
    requires |done| == |job.inp| == |job.out|
  {
    && r.id < received <= |done|
    && r.len == job.inp[r.id] + done[r.id]
    && r.rem == job.out[r.id] - done[r.id]
    && r.rem >= 0
  }

  ghost predicate Linked(job: Job, reqs: seq<Req>, received: nat, done: seq<int>)
    requires |done| == |job.inp| == |job.out|
  {
    forall i :: 0 <= i < |reqs| ==> LinkedAt(job, reqs[i], received, done)
  }

  ghost predicate Owing(reqs: seq<Req>) {
    forall i :: 0 <= i < |reqs| ==> reqs[i].rem >= 1
  }

  predicate Present(reqs: seq<Req>, i: nat) {
    exists k | 0 <= k < |reqs| :: reqs[k].id == i
  }

  /** Every received request that still owes tokens is present; the others have produced nothing. */
  ghost predicate Accounted(job: Job, reqs: seq<Req>, received: nat, done: seq<int>)
    requires |done| == |job.inp| == |job.out|
  {
    forall i: nat :: i < |done| ==> CoveredAt(job, reqs, received, done, i)
  }

  ghost predicate CoveredAt(job: Job, reqs: seq<Req>, received: nat, done: seq<int>, i: nat)
    requires |done| == |job.inp| == |job.out| && i < |done|
  {
    && 0 <= done[i] <= job.out[i]
    && (i < received && done[i] < job.out[i] ==> Present(reqs, i))
    && (i >= received ==> done[i] == 0)
  }

  /** The invariant of the requests in the table and the list together. */
  ghost predicate ActiveInv(job: Job, reqs: seq<Req>, received: nat, done: seq<int>, fifo: bool) {
    && job.Valid()
    && |done| == |job.inp| && received <= |done|
    && InOrder(reqs, fifo)
    && Linked(job, reqs, received, done)
    && Accounted(job, reqs, received, done)
  }

  /** The running table is within its limits, and everything in it has been prefilled. */
  ghost predicate TableInv(job: Job, run: seq<Req>, done: seq<int>)
    requires job.lim.blockSize >= 1
  {
    && (forall i :: 0 <= i < |run| ==> run[i].id < |done| && done[run[i].id] >= 1)
    && |run| <= job.lim.maxSeqs
    && Blocks(run, 0, job.lim.blockSize) <= job.lim.maxBlocks
  }

  ghost predicate QueueInv(job: Job, run: seq<Req>, wait: seq<Req>, received: nat, done: seq<int>, fifo: bool) {
    && ActiveInv(job, run + wait, received, done, fifo)
    && Owing(run + wait)
    && TableInv(job, run, done)
  }

  // ----- two ways the active requests change

  lemma {:induction false} OnlyOne(reqs: seq<Req>, fifo: bool, i: nat, j: nat)
    requires InOrder(reqs, fifo) && i < |reqs| && j < |reqs| && reqs[i].id == reqs[j].id
    ensures i == j
  {
  }

  /** Producing tokens: each present request moves by what it produced. */
  ghost predicate Produced(reqs: seq<Req>, reqs': seq<Req>, done: seq<int>, done': seq<int>) {
    && |reqs| == |reqs'| && |done| == |done'|
    && (forall i :: 0 <= i < |reqs| ==>
         && reqs'[i].id == reqs[i].id < |done|
         && reqs'[i].len - reqs[i].len == reqs[i].rem - reqs'[i].rem == done'[reqs[i].id] - done[reqs[i].id] >= 0
         && reqs'[i].rem >= 0)
    && (forall i: nat :: i < |done| && !Present(reqs, i) ==> done'[i] == done[i])
  }

  lemma {:induction false} ProducedKeeps(
      job: Job, reqs: seq<Req>, reqs': seq<Req>, received: nat, done: seq<int>, done': seq<int>, fifo: bool)
    requires ActiveInv(job, reqs, received, done, fifo) && Produced(reqs, reqs', done, done')
    ensures ActiveInv(job, reqs', received, done', fifo)
  {
    forall i | 0 <= i < |reqs'| ensures LinkedAt(job, reqs'[i], received, done') {
      assert LinkedAt(job, reqs[i], received, done);
    }
    forall i: nat | i < |done'| ensures CoveredAt(job, reqs', received, done', i) {
      assert CoveredAt(job, reqs, received, done, i);
      if Present(reqs, i) {
        var k :| 0 <= k < |reqs| && reqs[k].id == i;
        assert reqs'[k].id == i;
        assert LinkedAt(job, reqs'[k], received, done');
      }
    }
  }

  /** `at` lists the positions of reqs that are kept; the rest owe nothing. */
  ghost predicate Picks(reqs: seq<Req>, kept: seq<Req>, at: seq<nat>) {
    && |at| == |kept|
    && (forall k :: 0 <= k < |at| ==> at[k] < |reqs| && kept[k] == reqs[at[k]] && reqs[at[k]].rem != 0)
    && (forall j, k :: 0 <= j < k < |at| ==> at[j] < at[k])
    && (forall i :: 0 <= i < |reqs| ==> reqs[i].rem == 0 || i in at)
  }

  /** Dropping requests that owe nothing. */
  lemma {:induction false} PicksKeeps(
      job: Job, reqs: seq<Req>, kept: seq<Req>, at: seq<nat>, received: nat, done: seq<int>, fifo: bool)
    requires ActiveInv(job, reqs, received, done, fifo) && Picks(reqs, kept, at)
    ensures ActiveInv(job, kept, received, done, fifo) && Owing(kept)
  {
    forall k | 0 <= k < |kept| ensures LinkedAt(job, kept[k], received, done) {
      assert LinkedAt(job, reqs[at[k]], received, done);
    }
    forall i: nat | i < |done| ensures CoveredAt(job, kept, received, done, i) {
      assert CoveredAt(job, reqs, received, done, i);
      if i < received && done[i] < job.out[i] {
        var k :| 0 <= k < |reqs| && reqs[k].id == i;
        assert LinkedAt(job, reqs[k], received, done);
        var d :| 0 <= d < |at| && at[d] == k;
        assert kept[d].id == i;
      }
    }
    assert Owing(kept) by {
      forall k | 0 <= k < |kept| ensures kept[k].rem >= 1 {
        assert LinkedAt(job, kept[k], received, done);
      }
    }
  }

  lemma {:induction false} PicksOneMore(reqs: seq<Req>, kept: seq<Req>, at: seq<nat>, r: Req) returns (at': seq<nat>)
    requires Picks(reqs, kept, at)
    ensures Picks(reqs + [r], kept + KeepOne(r), at')
  {
    at' := if r.rem != 0 then at + [|reqs|] else at;
    forall i | 0 <= i < |reqs + [r]| ensures (reqs + [r])[i].rem == 0 || i in at' {
      if i < |reqs| {
        assert reqs[i].rem == 0 || i in at;
      } else if r.rem != 0 {
        assert at'[|at|] == i;
      }
    }
  }

  lemma {:induction false} UnfinishedPicks(run: seq<Req>) returns (at: seq<nat>)
    ensures Picks(run, Unfinished(run), at)
  {
    if run == [] {
      at := [];
    } else {
      var front, r := run[..|run| - 1], run[|run| - 1];
      at := UnfinishedPicks(front);
      at := PicksOneMore(front, Unfinished(front), at, r);
      assert front + [r] == run;
      assert Unfinished(run) == Unfinished(front) + KeepOne(r);
    }
  }

  lemma {:induction false} PicksThenAll(
      reqs: seq<Req>, kept: seq<Req>, at: seq<nat>, more: seq<Req>) returns (at': seq<nat>)
    requires Picks(reqs, kept, at) && Owing(more)
    ensures Picks(reqs + more, kept + more, at')
  {
    var tail := seq(|more|, i requires 0 <= i < |more| => |reqs| + i);
    at' := at + tail;
    forall i | 0 <= i < |reqs + more| ensures (reqs + more)[i].rem == 0 || i in at' {
      if i < |reqs| {
        assert reqs[i].rem == 0 || i in at;
      } else {
        assert tail[i - |reqs|] == i;
      }
    }
  }

  // ----- admission

  lemma {:induction false} PresentAppend(a: seq<Req>, b: seq<Req>, i: nat)
    ensures Present(a + b, i) <==> Present(a, i) || Present(b, i)
  {
    if Present(a, i) {
      var k :| 0 <= k < |a| && a[k].id == i;
      assert (a + b)[k].id == i;
    }
    if Present(b, i) {
      var k :| 0 <= k < |b| && b[k].id == i;
      assert (a + b)[|a| + k].id == i;
    }
    if Present(a + b, i) {
      var k :| 0 <= k < |a + b| && (a + b)[k].id == i;
      assert if k < |a| then a[k].id == i else b[k - |a|].id == i;
    }
  }

  /** done with one more token for the given request. */
  function Bump(done: seq<int>, i: nat): seq<int>
    requires i < |done|
  {
    done[i := done[i] + 1]
  }

  function Entered(run: seq<Req>, r: Req): seq<Req> {
    if Started(r).rem == 0 then run else run + [Started(r)]
  }

  lemma {:induction false} StartProduces(reqs: seq<Req>, n: nat, job: Job, received: nat, done: seq<int>, fifo: bool)
    requires ActiveInv(job, reqs, received, done, fifo) && Owing(reqs) && n < |reqs|
    ensures reqs[n].id < |done|
    ensures Produced(reqs, reqs[n := Started(reqs[n])], done, Bump(done, reqs[n].id))
  {
    var r := reqs[n];
    assert LinkedAt(job, r, received, done);
    assert Present(reqs, r.id);
    forall i | 0 <= i < |reqs| ensures reqs[i].id < |done| && (i != n ==> reqs[i].id != r.id) {
      assert LinkedAt(job, reqs[i], received, done);
    }
  }

  lemma {:induction false} PicksAllBut(reqs: seq<Req>, n: nat) returns (at: seq<nat>)
    requires n < |reqs| && reqs[n].rem == 0
    requires forall i :: 0 <= i < |reqs| && i != n ==> reqs[i].rem >= 1
    ensures Picks(reqs, reqs[..n] + reqs[n + 1..], at)
  {
    at := seq(|reqs| - 1, k requires 0 <= k < |reqs| - 1 => if k < n then k else k + 1);
    forall i | 0 <= i < |reqs| ensures reqs[i].rem == 0 || i in at {
      if i < n {
        assert at[i] == i;
      } else if i > n {
        assert at[i - 1] == i;
      }
    }
  }

  lemma {:induction false} AdmitOneKeeps(
      job: Job, run: seq<Req>, wait: seq<Req>, received: nat, done: seq<int>, fifo: bool)
    requires ActiveInv(job, run + wait, received, done, fifo) && Owing(run + wait) && wait != []
    ensures wait[0].id < |done|
    ensures ActiveInv(job, Entered(run, wait[0]) + wait[1..], received, Bump(done, wait[0].id), fifo)
    ensures Owing(Entered(run, wait[0]) + wait[1..])
  {
    var r, n, reqs := wait[0], |run|, run + wait;
    assert reqs[n] == r;
    StartProduces(reqs, n, job, received, done, fifo);
    var done', moved := Bump(done, r.id), reqs[n := Started(r)];
    ProducedKeeps(job, reqs, moved, received, done, done', fifo);
    var reqs' := Entered(run, r) + wait[1..];
    if Started(r).rem == 0 {
      var at := PicksAllBut(moved, n);
      assert reqs' == moved[..n] + moved[n + 1..];
      PicksKeeps(job, moved, reqs', at, received, done', fifo);
    } else {
      assert reqs' == moved;
    }
  }

  lemma {:induction false} AdmitOneTable(
      job: Job, run: seq<Req>, wait: seq<Req>, received: nat, done: seq<int>, fifo: bool)
    requires QueueInv(job, run, wait, received, done, fifo)
    requires CanAdmit(job.lim, run, wait, Blocks(run, 0, job.lim.blockSize))
    ensures wait[0].id < |done|
    ensures var run' := Entered(run, wait[0]);
            && TableInv(job, run', Bump(done, wait[0].id))
            && Blocks(run', 0, job.lim.blockSize) == Blocks(run, 0, job.lim.blockSize)
               + (if Started(wait[0]).rem == 0 then 0 else CeilDiv(wait[0].len, job.lim.blockSize))
  {
    var r := wait[0];
    assert (run + wait)[|run|] == r;
    assert LinkedAt(job, (run + wait)[|run|], received, done);
    assert CoveredAt(job, run + wait, received, done, r.id);
    BlocksAppend(run, Started(r), 0, job.lim.blockSize);
  }

  function BumpAll(done: seq<int>, prompts: seq<Req>): (d: seq<int>)
    requires forall i :: 0 <= i < |prompts| ==> prompts[i].id < |done|
    ensures |d| == |done|
    decreases |prompts|
  {
    if prompts == [] then done else BumpAll(Bump(done, prompts[0].id), prompts[1..])
  }

  lemma {:induction false} BumpAllAt(done: seq<int>, prompts: seq<Req>, i: nat)
    requires forall k :: 0 <= k < |prompts| ==> prompts[k].id < |done|
    requires InOrder(prompts, false) && i < |done|
    ensures BumpAll(done, prompts)[i] == done[i] + (if Present(prompts, i) then 1 else 0)
    decreases |prompts|
  {
    if prompts != [] {
      BumpAllAt(Bump(done, prompts[0].id), prompts[1..], i);
      PresentAppend([prompts[0]], prompts[1..], i);
      assert [prompts[0]] + prompts[1..] == prompts;
      assert Present([prompts[0]], i) <==> [prompts[0]][0].id == i;
    }
  }

  /** What admission does, stated without its loop. */
  ghost predicate Admitted(
      job: Job, run: seq<Req>, wait: seq<Req>, received: nat, done: seq<int>, fifo: bool, a: Admission)
    requires job.lim.blockSize >= 1
  {
    && wait == a.prompts + a.wait
    && run <= a.run
    && (forall i :: 0 <= i < |a.prompts| ==> a.prompts[i].id < |done|)
    && QueueInv(job, a.run, a.wait, received, BumpAll(done, a.prompts), fifo)
    && !CanAdmit(job.lim, a.run, a.wait, Blocks(a.run, 0, job.lim.blockSize))
  }

  lemma {:induction false} AdmitUnfolds(lim: Limits, run: seq<Req>, wait: seq<Req>, used: int)
    requires lim.blockSize >= 1 && CanAdmit(lim, run, wait, used)
    ensures var used' := used + (if Started(wait[0]).rem == 0 then 0 else CeilDiv(wait[0].len, lim.blockSize));
            var rest := Admit(lim, Entered(run, wait[0]), wait[1..], used');
            Admit(lim, run, wait, used) == Admission(rest.run, rest.wait, [wait[0]] + rest.prompts)
  {
  }

  lemma {:induction false} AdmittedOneMore(
      job: Job, run: seq<Req>, wait: seq<Req>, received: nat, done: seq<int>, fifo: bool, rest: Admission,
      whole: Admission)
    requires job.lim.blockSize >= 1 && wait != [] && wait[0].id < |done|
    requires Admitted(job, Entered(run, wait[0]), wait[1..], received, Bump(done, wait[0].id), fifo, rest)
    requires whole == Admission(rest.run, rest.wait, [wait[0]] + rest.prompts)
    ensures Admitted(job, run, wait, received, done, fifo, whole)
  {
    var prompts := [wait[0]] + rest.prompts;
    assert prompts[1..] == rest.prompts;
    assert wait == [wait[0]] + wait[1..];
    assert run <= Entered(run, wait[0]);
  }

  /** Admission takes a prefix of the waiting list, as long as possible, and keeps the invariant
      with one more token for each prompt. */
  lemma {:induction false} AdmitKeeps(
      job: Job, run: seq<Req>, wait: seq<Req>, received: nat, done: seq<int>, fifo: bool)
    requires QueueInv(job, run, wait, received, done, fifo)
    ensures Admitted(job, run, wait, received, done, fifo,
                     Admit(job.lim, run, wait, Blocks(run, 0, job.lim.blockSize)))
    decreases |wait|
  {
    var used := Blocks(run, 0, job.lim.blockSize);
    if CanAdmit(job.lim, run, wait, used) {
      AdmitOneKeeps(job, run, wait, received, done, fifo);
      AdmitOneTable(job, run, wait, received, done, fifo);
      var run' := Entered(run, wait[0]);
      AdmitUnfolds(job.lim, run, wait, used);
      AdmitKeeps(job, run', wait[1..], received, Bump(done, wait[0].id), fifo);
      AdmittedOneMore(job, run, wait, received, done, fifo,
                      Admit(job.lim, run', wait[1..], Blocks(run', 0, job.lim.blockSize)),
                      Admit(job.lim, run, wait, used));
    } else {
      assert wait == [] + wait;
    }
  }

  /** A request whose longest form leaves one percent of an otherwise empty cache free, and fits
      a prefill batch on its own. */
  ghost predicate Servable(job: Job, i: nat)
    requires job.Valid() && i < |job.inp|
  {
    && EnoughCache(job.lim, 0, job.inp[i] + job.out[i] - 1)
    && job.inp[i] + job.out[i] - 1 <= job.lim.maxTokens
  }

  ghost predicate AllServable(job: Job)
    requires job.Valid()
  {
    forall i :: 0 <= i < |job.inp| ==> Servable(job, i)
  }

  /** With an empty running table the head of the waiting list is always admitted. */
  lemma {:induction false} HeadAdmitted(job: Job, wait: seq<Req>, received: nat, done: seq<int>, fifo: bool)
    requires QueueInv(job, [], wait, received, done, fifo) && AllServable(job) && wait != []
    ensures CanAdmit(job.lim, [], wait, 0)
    ensures Admit(job.lim, [], wait, 0).prompts != []
  {
    var r := wait[0];
    assert ([] + wait)[0] == r;
    assert LinkedAt(job, ([] + wait)[0], received, done);
    assert CoveredAt(job, [] + wait, received, done, r.id);
    assert Servable(job, r.id);
    CeilDivMono(r.len, job.inp[r.id] + job.out[r.id] - 1, job.lim.blockSize);
    CeilDivMono(1, r.len, job.lim.blockSize);
  }

  // ----- preemption

  /** Kept is the longest prefix for whose every request there is still room when it takes a new block
      and those before it hold one more token each. */
  lemma {:induction false} KeptExact(lim: Limits, run: seq<Req>)
    requires lim.blockSize >= 1
    ensures var k, bs := Kept(lim, run), lim.blockSize;
            && (forall i :: 0 <= i < k ==> Blocks(run[..i], 1, bs) + CeilDiv(run[i].len - 1, bs) + 1 <= lim.maxBlocks)
            && (k < |run| ==> Blocks(run[..k], 1, bs) + CeilDiv(run[k].len - 1, bs) + 1 > lim.maxBlocks)
  {
    forall i | 0 <= i < Kept(lim, run)
      ensures Blocks(run[..i], 1, lim.blockSize) + CeilDiv(run[i].len - 1, lim.blockSize) + 1 <= lim.maxBlocks
    {
      assert ApproxBlocks(lim, run, i) <= lim.maxBlocks;
    }
  }

  /** The kept prefix is never empty and has room for one more token each. */
  lemma {:induction false} KillKeepsRoom(
      job: Job, run: seq<Req>, wait: seq<Req>, received: nat, done: seq<int>, fifo: bool)
    requires QueueInv(job, run, wait, received, done, fifo) && AllServable(job) && run != []
    ensures var k := Kept(job.lim, run);
            && 1 <= k
            && Blocks(run[..k], 1, job.lim.blockSize) <= job.lim.maxBlocks
            && QueueInv(job, run[..k], run[k..] + wait, received, done, fifo)
            && run[..k] + (run[k..] + wait) == run + wait
  {
    var lim := job.lim;
    var k, bs := Kept(lim, run), lim.blockSize;
    var r := (run + wait)[0];
    assert LinkedAt(job, r, received, done);
    assert Servable(job, r.id);
    CeilDivMono(r.len - 1, job.inp[r.id] + job.out[r.id] - 1, bs);
    assert ApproxBlocks(lim, run, 0) <= lim.maxBlocks by {
      assert run[..0] == [];
    }
    assert ApproxBlocks(lim, run, k - 1) <= lim.maxBlocks;
    CeilDivNext(run[k - 1].len - 1, bs);
    assert run[..k][..k - 1] == run[..k - 1];
    BlocksMono(run[..k], 0, 1, bs);
    assert run[..k] + (run[k..] + wait) == run + wait;
  }

  // ----- decode and compaction

  /** done with k more tokens for each request of the table. */
  function Grow(done: seq<int>, run: seq<Req>, k: int): (d: seq<int>)
    ensures |d| == |done|
    ensures forall i :: 0 <= i < |d| ==> d[i] == done[i] + (if Present(run, i) then k else 0)
  {
    seq(|done|, i requires 0 <= i < |done| => done[i] + (if Present(run, i) then k else 0))
  }

  lemma {:induction false} UnfinishedBlocks(run: seq<Req>, k: int, bs: int)
    requires bs >= 1 && k >= 0 && LensPositive(run)
    ensures Blocks(Unfinished(run), k, bs) <= Blocks(run, k, bs)
  {
    if run != [] {
      var last := |run| - 1;
      UnfinishedBlocks(run[..last], k, bs);
      BlocksAppend(Unfinished(run[..last]), run[last], k, bs);
      CeilDivPositive(run[last].len - 1 + k, bs);
      assert Unfinished(run[..last]) + [] == Unfinished(run[..last]);
    }
  }

  lemma {:induction false} DecodeProduces(
      job: Job, run: seq<Req>, wait: seq<Req>, received: nat, done: seq<int>, fifo: bool, k: nat)
    requires QueueInv(job, run, wait, received, done, fifo) && run != [] && k <= MinRem(run)
    ensures Produced(run + wait, Advance(run, k) + wait, done, Grow(done, run, k))
  {
    var reqs := run + wait;
    MinRemBound(run);
    forall i | 0 <= i < |reqs| ensures reqs[i].id < |done| && (Present(run, reqs[i].id) <==> i < |run|) {
      assert LinkedAt(job, reqs[i], received, done);
      if i < |run| {
        assert run[i].id == reqs[i].id;
      } else if Present(run, reqs[i].id) {
        var c :| 0 <= c < |run| && run[c].id == reqs[i].id;
        OnlyOne(reqs, fifo, c, i);
      }
    }
    forall i: nat | !Present(reqs, i) ensures !Present(run, i) {
      PresentAppend(run, wait, i);
    }
  }

  /** k decode steps and the removal of the finished requests keep the invariant. */
  lemma {:induction false} DecodeKeeps(
      job: Job, run: seq<Req>, wait: seq<Req>, received: nat, done: seq<int>, fifo: bool, k: nat)
    requires QueueInv(job, run, wait, received, done, fifo)
    requires run != [] && k <= MinRem(run) && Blocks(run, k, job.lim.blockSize) <= job.lim.maxBlocks
    ensures QueueInv(job, Unfinished(Advance(run, k)), wait, received, Grow(done, run, k), fifo)
  {
    var moved, done' := Advance(run, k), Grow(done, run, k);
    DecodeProduces(job, run, wait, received, done, fifo, k);
    ProducedKeeps(job, run + wait, moved + wait, received, done, done', fifo);
    assert Owing(wait) by {
      forall i | 0 <= i < |wait| ensures wait[i].rem >= 1 {
        assert (run + wait)[|run| + i] == wait[i];
      }
    }
    var at := UnfinishedPicks(moved);
    var at' := PicksThenAll(moved, Unfinished(moved), at, wait);
    PicksKeeps(job, moved + wait, Unfinished(moved) + wait, at', received, done', fifo);
    DecodeTable(job, run, wait, received, done, fifo, k, at);
  }

  lemma {:induction false} DecodeTable(
      job: Job, run: seq<Req>, wait: seq<Req>, received: nat, done: seq<int>, fifo: bool, k: nat, at: seq<nat>)
    requires QueueInv(job, run, wait, received, done, fifo)
    requires Blocks(run, k, job.lim.blockSize) <= job.lim.maxBlocks
    requires Picks(Advance(run, k), Unfinished(Advance(run, k)), at)
    ensures TableInv(job, Unfinished(Advance(run, k)), Grow(done, run, k))
  {
    var moved, left := Advance(run, k), Unfinished(Advance(run, k));
    forall i | 0 <= i < |left| ensures left[i].id < |done| && Grow(done, run, k)[left[i].id] >= 1 {
      assert left[i].id == run[at[i]].id;
      assert done[run[at[i]].id] >= 1;
    }
    assert LensPositive(moved) by {
      forall i | 0 <= i < |moved| ensures moved[i].len >= 1 {
        assert (run + wait)[i] == run[i];
        assert LinkedAt(job, (run + wait)[i], received, done);
      }
    }
    UnfinishedBlocks(moved, 0, job.lim.blockSize);
    BlocksAdvance(run, k, 0, job.lim.blockSize);
  }
}
