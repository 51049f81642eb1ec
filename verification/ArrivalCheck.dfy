/** Receiving newly arrived requests. */
module ArrivalCheck {
  import opened Lists
  import opened Requests
  import opened Ranges
  import opened TraceInvariant
  import opened Queues
  import opened Rounds
  import opened Simulation
  import opened SchedulerState
  import StableSort

  // ----- which requests have arrived

  /** First request from n on that arrives after `time`. */
  function ArrivalEnd(arrive: seq<real>, n: nat, time: real): (e: nat)
    requires n <= |arrive|
    ensures n <= e <= |arrive|
    ensures forall i :: n <= i < e ==> arrive[i] <= time
    ensures e < |arrive| ==> arrive[e] > time
    decreases |arrive| - n
  {
    if n == |arrive| || arrive[n] > time then n else ArrivalEnd(arrive, n + 1, time)
  }

  /** Nothing to receive: everything has been, or the next request is late and others are running. */
  predicate NothingToReceive(arrive: seq<real>, n: nat, busy: bool, time: real) {
    n >= |arrive| || (busy && arrive[n] > time)
  }

  /** An idle engine waits for the next arrival. */
  function CheckTime(arrive: seq<real>, n: nat, busy: bool, time: real): real {
    if NothingToReceive(arrive, n, busy, time) || arrive[n] <= time then time else arrive[n]
  }

  function CheckEnd(arrive: seq<real>, n: nat, busy: bool, time: real): (e: nat)
    requires n <= |arrive|
  {
    if NothingToReceive(arrive, n, busy, time) then n
    else ArrivalEnd(arrive, n, CheckTime(arrive, n, busy, time))
  }

  /** The check moves the clock forward only for an idle engine, whose next request it then
      receives; and it receives nobody early. */
  lemma {:induction false} CheckFacts(arrive: seq<real>, n: nat, busy: bool, time: real)
    requires n <= |arrive|
    ensures var t, e := CheckTime(arrive, n, busy, time), CheckEnd(arrive, n, busy, time);
            && time <= t && n <= e <= |arrive|
            && (forall i :: n <= i < e ==> arrive[i] <= t)
            && (t > time ==> !busy && e > n)
            && (!busy && n < |arrive| ==> e > n)
            && (e < |arrive| && !NothingToReceive(arrive, n, busy, time) ==> arrive[e] > t)
  {
  }

  // ----- longest first, stable

  function Longer(lens: seq<int>): (nat, nat) -> bool {
    (i: nat, j: nat) => i < |lens| && (j >= |lens| || lens[i] > lens[j])
  }

  /** Positions by decreasing length, equal lengths in place: a stable argsort of the negated lengths. */
  function ByLength(lens: seq<int>): (order: seq<nat>)
    ensures |order| == |lens| && InRange(order, |lens|)
  {
    ByLengthMembers(lens);
    StableSort.SortBy(UpTo(|lens|), Longer(lens))
  }

  lemma {:induction false} ByLengthMembers(lens: seq<int>)
    ensures var o := StableSort.SortBy(UpTo(|lens|), Longer(lens));
            |o| == |lens| && InRange(o, |lens|) && forall i: nat :: i < |lens| ==> i in o
  {
    StableSort.SortFacts(UpTo(|lens|), Longer(lens));
    var o := StableSort.SortBy(UpTo(|lens|), Longer(lens));
    forall k | 0 <= k < |o| ensures o[k] < |lens| {
      assert o[k] in o;
    }
    forall i: nat | i < |lens| ensures i in o {
      assert UpTo(|lens|)[i] == i;
    }
  }

  ghost predicate Before(lens: seq<int>, a: nat, b: nat)
    requires a < |lens| && b < |lens|
  {
    lens[a] > lens[b] || (lens[a] == lens[b] && a < b)
  }

  /** All positions below n, each once, longest first and ties in place. */
  ghost predicate StableOrder(order: seq<nat>, lens: seq<int>, n: nat) {
    && n <= |lens| && |order| == n
    && (forall k :: 0 <= k < n ==> order[k] < n)
    && (forall j, k :: 0 <= j < k < n ==> Before(lens, order[j], order[k]))
    && (forall i: nat :: i < n ==> i in order)
  }

  lemma {:induction false} ByLengthStable(lens: seq<int>)
    ensures StableOrder(ByLength(lens), lens, |lens|)
  {
    ByLengthMembers(lens);
    StableSort.SortStable(UpTo(|lens|), Longer(lens));
    var o, above := ByLength(lens), Longer(lens);
    forall j, k | 0 <= j < k < |lens| ensures Before(lens, o[j], o[k]) {
      assert StableSort.Precedes(o[j], o[k], above);
    }
  }

  /** The reordering is unique: any stable order by decreasing length is this one. */
  lemma {:induction false} StableOrderUnique(a: seq<nat>, b: seq<nat>, lens: seq<int>, n: nat)
    requires StableOrder(a, lens, n) && StableOrder(b, lens, n)
    ensures a == b
  {
    PrefixUnique(a, b, lens, n, n);
  }

  lemma {:induction false} PrefixUnique(a: seq<nat>, b: seq<nat>, lens: seq<int>, n: nat, k: nat)
    requires StableOrder(a, lens, n) && StableOrder(b, lens, n) && k <= n
    ensures forall i :: 0 <= i < k ==> a[i] == b[i]
  {
    if k > 0 {
      PrefixUnique(a, b, lens, n, k - 1);
      LaterIn(a, b, lens, n, k - 1);
      LaterIn(b, a, lens, n, k - 1);
    }
  }

  /** After a common prefix, the next element of one order is not before the next of the other. */
  lemma {:induction false} LaterIn(a: seq<nat>, b: seq<nat>, lens: seq<int>, n: nat, k: nat)
    requires StableOrder(a, lens, n) && StableOrder(b, lens, n)
    requires k < n && forall i :: 0 <= i < k ==> a[i] == b[i]
    ensures a[k] == b[k] || Before(lens, b[k], a[k])
  {
    assert a[k] in b;
    var j :| 0 <= j < n && b[j] == a[k];
    assert forall i :: 0 <= i < k ==> Before(lens, a[i], a[k]);
    assert j >= k;
  }

  /** The waiting list after the check: the new requests, possibly longest first. */
  function Arranged(sortInput: bool, news: seq<Req>): (w: seq<Req>)
    ensures |w| == |news|
  {
    if sortInput then Gather(news, ByLength(LensOf(news))) else news
  }

  // ----- the invariant across the check

  function NewReqs(job: Job, n: nat, e: nat): (w: seq<Req>)
    requires n <= e <= |job.inp| == |job.out|
    ensures |w| == e - n && forall i :: 0 <= i < |w| ==> w[i] == Req(n + i, job.inp[n + i], job.out[n + i])
  {
    seq(e - n, i requires 0 <= i < e - n => Req(n + i, job.inp[n + i], job.out[n + i]))
  }

  /** The arranged list holds each new request exactly once. */
  lemma {:induction false} ArrangedFacts(sortInput: bool, job: Job, n: nat, e: nat)
    requires job.Valid() && n <= e <= |job.inp|
    ensures var w := Arranged(sortInput, NewReqs(job, n, e));
            && (forall k :: 0 <= k < |w| ==>
                 n <= w[k].id < e && w[k] == Req(w[k].id, job.inp[w[k].id], job.out[w[k].id]))
            && (forall j, k :: 0 <= j < k < |w| ==> w[j].id != w[k].id)
            && (forall i: nat :: n <= i < e ==> Present(w, i))
  {
    var news := NewReqs(job, n, e);
    var w := Arranged(sortInput, news);
    var order := ByLength(LensOf(news));
    ByLengthStable(LensOf(news));
    forall i: nat | n <= i < e ensures Present(w, i) {
      if sortInput {
        var at: nat := i - n;
        assert at in order;
        var k :| 0 <= k < |order| && order[k] == at;
        assert w[k].id == i;
      } else {
        assert w[i - n].id == i;
      }
    }
  }

  lemma {:induction false} NewLinked(job: Job, run: seq<Req>, w: seq<Req>, n: nat, e: nat, done: seq<int>, k: nat)
    requires QueueInv(job, run, [], n, done, false) && n <= e <= |job.inp| && k < |run + w|
    requires forall i :: 0 <= i < |w| ==> n <= w[i].id < e && w[i] == Req(w[i].id, job.inp[w[i].id], job.out[w[i].id])
    ensures LinkedAt(job, (run + w)[k], e, done) && (run + w)[k].rem >= 1
    ensures k < |run| <==> (run + w)[k].id < n
  {
    if k < |run| {
      assert (run + [])[k] == (run + w)[k];
      assert LinkedAt(job, (run + [])[k], n, done);
    } else {
      assert (run + w)[k] == w[k - |run|];
      assert CoveredAt(job, run + [], n, done, w[k - |run|].id);
    }
  }

  lemma {:induction false} NewActive(job: Job, run: seq<Req>, w: seq<Req>, n: nat, e: nat, done: seq<int>)
    requires QueueInv(job, run, [], n, done, false) && n <= e <= |job.inp|
    requires forall i :: 0 <= i < |w| ==> n <= w[i].id < e && w[i] == Req(w[i].id, job.inp[w[i].id], job.out[w[i].id])
    requires forall j, k :: 0 <= j < k < |w| ==> w[j].id != w[k].id
    requires forall i: nat :: n <= i < e ==> Present(w, i)
    ensures ActiveInv(job, run + w, e, done, false) && Owing(run + w)
  {
    var reqs := run + w;
    forall i | 0 <= i < |reqs| ensures LinkedAt(job, reqs[i], e, done) && reqs[i].rem >= 1 {
      NewLinked(job, run, w, n, e, done, i);
    }
    assert InOrder(run, false) by {
      assert run + [] == run;
    }
    forall i, j | 0 <= i < j < |reqs| ensures reqs[i].id != reqs[j].id {
      NewLinked(job, run, w, n, e, done, i);
      NewLinked(job, run, w, n, e, done, j);
      if j < |run| {
        assert reqs[i] == run[i] && reqs[j] == run[j];
      }
    }
    forall i: nat | i < |done| ensures CoveredAt(job, reqs, e, done, i) {
      assert CoveredAt(job, run + [], n, done, i);
      PresentAppend(run, [], i);
      PresentAppend(run, w, i);
    }
  }

  /** Receiving requests keeps the invariant: each new one is waiting exactly once, untouched. */
  lemma {:induction false} ReceiveKeeps(job: Job, st: SimState, sortInput: bool, n: nat, e: nat)
    requires StateInv(job, st, n, false) && st.wait == [] && n <= e <= |job.inp|
    ensures StateInv(job, st.(wait := Arranged(sortInput, NewReqs(job, n, e))), e, false)
  {
    var w, done := Arranged(sortInput, NewReqs(job, n, e)), DoneOf(st.tr.progress);
    ArrangedFacts(sortInput, job, n, e);
    NewActive(job, st.run, w, n, e, done);
    forall k | 0 <= k < |w|
      ensures w[k].id < |st.tr.progress| && !Attends(st.tr.progress[w[k].id], |st.tr.steps| - 1)
    {
      assert CoveredAt(job, st.run + [], n, done, w[k].id);
      CanonicalFacts(st.tr.progress[w[k].id], |st.tr.steps|);
    }
  }

  // ----- the check on the working state

  method SortArrivals(arrive: array<real>, p: nat, order: seq<nat>)
    requires p + |order| <= arrive.Length && InRange(order, |order|)
    modifies arrive
    ensures forall k :: 0 <= k < |order| ==> arrive[p + k] == old(arrive[p + order[k]])
    ensures arrive[p + |order|..] == old(arrive[p + |order|..]) && arrive[..p] == old(arrive[..p])
  {
    forall k | 0 <= k < |order| {
      arrive[p + k] := arrive[p + order[k]];
    }
  }

  /** Reorder the waiting part of all four arrays. */
  method SortWaiting(s: Scheduler, arrive: array<real>, order: seq<nat>)
    requires s.Valid() && arrive.Length == s.inpLens.Length && |order| == |s.seqIds| - s.pointer
    requires forall k :: 0 <= k < |order| ==> order[k] < |order|
    modifies s`seqIds, s.inpLens, s.outLens, arrive
    ensures s.Valid() && |s.seqIds| == |old(s.seqIds)|
    ensures s.Wait() == Gather(old(s.Wait()), order)
    ensures s.inpLens[|s.seqIds|..] == old(s.inpLens[|s.seqIds|..])
    ensures s.outLens[|s.seqIds|..] == old(s.outLens[|s.seqIds|..])
    ensures arrive[|s.seqIds|..] == old(arrive[|s.seqIds|..]) && arrive[..s.pointer] == old(arrive[..s.pointer])
    ensures s.pointer == old(s.pointer)
    ensures forall k :: 0 <= k < |order| ==> arrive[s.pointer + k] == old(arrive[s.pointer + order[k]])
  {
    ghost var wait, ids, lens, rems, e := s.Wait(), s.seqIds, s.inpLens[..], s.outLens[..], |s.seqIds|;
    var p := s.pointer;
    var news := Gather(ZipReqs(s.seqIds[p..], s.inpLens[p..|s.seqIds|], s.outLens[p..|s.seqIds|]), order);
    SortArrivals(arrive, p, order);
    s.PutBack(p, news);
    ReplacedSlice(ids, p, IdsOf(news), e);
    ReplacedSlice(lens, p, LensOf(news), e);
    ReplacedSlice(rems, p, RemsOf(news), e);
    ZipReqsAppend(news, [], [], []);
    assert s.Wait() == ZipReqs(s.seqIds[p..], s.inpLens[..][p..e], s.outLens[..][p..e]);
    assert ids[e..] == [] && lens[e..e] == [] && rems[e..e] == [];
  }

  /** The first unreceived request that has not arrived yet. */
  method NewInputEnd(arrive: array<real>, n: nat, now: real) returns (e: nat)
    requires n <= arrive.Length
    ensures e == ArrivalEnd(arrive[..], n, now)
  {
    e := n;
    while e < arrive.Length && arrive[e] <= now
      invariant n <= e <= arrive.Length
      invariant ArrivalEnd(arrive[..], n, now) == ArrivalEnd(arrive[..], e, now)
    {
      e := e + 1;
    }
  }

  /** Append the requests from the waiting pointer up to e to the waiting list. */
  method AppendNew(s: Scheduler, e: nat)
    requires s.Valid() && s.pointer == |s.seqIds| <= e <= s.inpLens.Length
    modifies s`seqIds
    ensures s.Valid() && |s.seqIds| == e
    ensures s.Wait() == NewReqs(Job(s.inpLens[..], s.outLens[..], s.lim), s.pointer, e)
  {
    var p := s.pointer;
    s.seqIds := s.seqIds + seq(e - p, i requires 0 <= i < e - p => p + i);
  }

  /** Receive the requests up to e, longest first if asked. */
  method ReceiveUpTo(s: Scheduler, sortInput: bool, arrive: array<real>, e: nat)
    requires s.Valid() && s.pointer == |s.seqIds| <= e <= s.inpLens.Length == arrive.Length
    modifies s`seqIds, s.inpLens, s.outLens, arrive
    ensures s.Valid() && |s.seqIds| == e
    ensures s.Wait() == Arranged(sortInput, NewReqs(Job(old(s.inpLens[..]), old(s.outLens[..]), s.lim), s.pointer, e))
    ensures s.inpLens[e..] == old(s.inpLens[e..]) && s.outLens[e..] == old(s.outLens[e..])
    ensures arrive[e..] == old(arrive[e..])
  {
    ghost var news := NewReqs(Job(s.inpLens[..], s.outLens[..], s.lim), s.pointer, e);
    var lens := s.inpLens[s.pointer..e];
    assert LensOf(news) == lens;
    AppendNew(s, e);
    if sortInput {
      var order := ByLength(lens);
      SortWaiting(s, arrive, order);
      assert s.Wait() == Gather(news, order);
    }
  }

  /** Receive the requests that have arrived. It is only called with nothing waiting. */
  method CheckNewInputRequests(s: Scheduler, sortInput: bool, arrive: array<real>, time: real) returns (now: real)
    requires s.Valid() && s.pointer == |s.seqIds| && arrive.Length == s.inpLens.Length
    modifies s`seqIds, s.inpLens, s.outLens, arrive
    ensures s.Valid() && now == CheckTime(old(arrive[..]), s.pointer, s.runNum > 0, time)
    ensures var n, e := s.pointer, CheckEnd(old(arrive[..]), s.pointer, s.runNum > 0, time);
            && |s.seqIds| == e && n <= e <= arrive.Length
            && s.Wait() == Arranged(sortInput, NewReqs(Job(old(s.inpLens[..]), old(s.outLens[..]), s.lim), n, e))
            && s.inpLens[e..] == old(s.inpLens[..])[e..] && s.outLens[e..] == old(s.outLens[..])[e..]
            && arrive[e..] == old(arrive[..])[e..]
  {
    var n := |s.seqIds|;
    now := time;
    if n == s.inpLens.Length || (s.runNum > 0 && arrive[n] > time) {
      assert s.Wait() == [];
      assert NewReqs(Job(s.inpLens[..], s.outLens[..], s.lim), n, n) == [];
      assert Arranged(sortInput, []) == [];
      return;
    }
    if arrive[n] > time {
      now := arrive[n];
    }
    var e := NewInputEnd(arrive, n, now);
    ReceiveUpTo(s, sortInput, arrive, e);
  }
}
