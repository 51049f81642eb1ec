/** Running requests move together: whoever takes part in a decode step either took part in the
    previous one or has been prefilled since. */
module Resume {
  import opened Lists
  import opened Requests
  import opened Ranges
  import opened Packing
  import opened Traces
  import opened TraceInvariant
  import opened TraceSteps
  import opened Queues
  import opened Rounds

  /** A request decoding at s decoded at every earlier decode step u with nothing of its own in
      between. */
  ghost predicate ResumesAt(r: seq<int>, steps: seq<bool>, s: int)
    requires 0 <= s < |steps|
  {
    forall u :: 0 <= u < s && !steps[u] && (forall t :: u < t < s ==> !Attends(r, t)) ==> Attends(r, u)
  }

  ghost predicate DecodesResume(tr: Trace) {
    forall i, s :: 0 <= i < |tr.progress| && 0 <= s < |tr.steps| && !tr.steps[s] && Attends(tr.progress[i], s)
      ==> ResumesAt(tr.progress[i], tr.steps, s)
  }

  /** Since its last iteration a running request has only sat out prefill steps. */
  ghost predicate UpToDate(r: seq<int>, steps: seq<bool>) {
    r != [] && forall t :: r[|r| - 1] < t < |steps| && 0 <= t ==> steps[t]
  }

  ghost predicate ResumeInv(tr: Trace, run: seq<Req>) {
    && DecodesResume(tr)
    && forall k :: 0 <= k < |run| ==> run[k].id < |tr.progress| && UpToDate(tr.progress[run[k].id], tr.steps)
  }

  // ----- prefill

  lemma {:induction false} PrefillResumes(job: Job, tr: Trace, batch: seq<Prompt>, tr': Trace)
    requires OneMore(job, tr, batch, tr') && tr'.steps[|tr.steps|] && DecodesResume(tr)
    ensures DecodesResume(tr')
    ensures forall i: nat :: i < |tr.progress| && (i in Ids(batch) || UpToDate(tr.progress[i], tr.steps)) ==>
              UpToDate(tr'.progress[i], tr'.steps)
  {
    var n := |tr.steps|;
    assert forall t :: 0 <= t < n ==> tr'.steps[t] == tr'.steps[..n][t];
    forall i, s | 0 <= i < |tr'.progress| && 0 <= s < |tr'.steps| && !tr'.steps[s] && Attends(tr'.progress[i], s)
      ensures ResumesAt(tr'.progress[i], tr'.steps, s)
    {
      RequestStep(job, tr, batch, tr', i);
      var r, r' := tr.progress[i], tr'.progress[i];
      assert ResumesAt(r, tr.steps, s);
      forall u | 0 <= u < s && !tr'.steps[u] && (forall t :: u < t < s ==> !Attends(r', t)) ensures Attends(r', u) {
        assert forall t :: u < t < s ==> (Attends(r', t) <==> Attends(r, t));
      }
    }
    forall i: nat | i < |tr.progress| && (i in Ids(batch) || UpToDate(tr.progress[i], tr.steps))
      ensures UpToDate(tr'.progress[i], tr'.steps)
    {
      RequestStep(job, tr, batch, tr', i);
      AddRangeFacts(tr.progress[i], n, n);
    }
  }

  lemma {:induction false} PrefillAllResumes(job: Job, tr: Trace, batches: seq<seq<Prompt>>)
    requires job.Valid() && TraceInv(job, tr) && DecodesResume(tr)
    requires forall i :: 0 <= i < |batches| ==> batches[i] != []
    requires PromptsReady(job, tr, Flatten(batches))
    ensures BatchesFor(batches, |tr.progress|) && DecodesResume(PrefillAll(tr, batches))
    ensures forall i: nat :: i < |tr.progress| && (i in Ids(Flatten(batches)) || UpToDate(tr.progress[i], tr.steps)) ==>
              UpToDate(PrefillAll(tr, batches).progress[i], PrefillAll(tr, batches).steps)
    decreases |batches|
  {
    PrefillAllKeeps(job, tr, batches);
    if batches != [] {
      var batch, others := batches[0], Flatten(batches[1..]);
      BatchReady(job, tr, batch, others);
      PrefillKeeps(job, tr, batch);
      var tr1 := Prefill(tr, batch);
      PrefillResumes(job, tr, batch, tr1);
      OthersStillReady(job, tr, batch, others, tr1);
      PrefillAllResumes(job, tr1, batches[1..]);
      forall i: nat | i < |tr.progress| && (i in Ids(Flatten(batches)) || UpToDate(tr.progress[i], tr.steps))
        ensures UpToDate(PrefillAll(tr, batches).progress[i], PrefillAll(tr, batches).steps)
      {
        IdsOfSum(batch, others, i);
      }
    }
  }

  /** Everyone in the table after admission was there before or is among the prompts. */
  lemma {:induction false} AdmittedFrom(lim: Limits, run: seq<Req>, wait: seq<Req>, used: int)
    requires lim.blockSize >= 1
    ensures var a := Admit(lim, run, wait, used);
            forall k :: 0 <= k < |a.run| ==> Present(run, a.run[k].id) || Present(a.prompts, a.run[k].id)
    decreases |wait|
  {
    var a := Admit(lim, run, wait, used);
    if CanAdmit(lim, run, wait, used) {
      var used' := used + (if Started(wait[0]).rem == 0 then 0 else CeilDiv(wait[0].len, lim.blockSize));
      var run' := Entered(run, wait[0]);
      AdmitUnfolds(lim, run, wait, used);
      AdmittedFrom(lim, run', wait[1..], used');
      var rest := Admit(lim, run', wait[1..], used');
      forall k | 0 <= k < |a.run| ensures Present(run, a.run[k].id) || Present(a.prompts, a.run[k].id) {
        var id := a.run[k].id;
        assert a.prompts == [wait[0]] + rest.prompts;
        PresentAppend([wait[0]], rest.prompts, id);
        PresentAppend(run, [Started(wait[0])], id);
        assert Present([Started(wait[0])], id) ==> [wait[0]][0].id == id;
      }
    } else {
      forall k | 0 <= k < |a.run| ensures Present(run, a.run[k].id) {
        assert run[k].id == a.run[k].id;
      }
    }
  }

  /** Admission and prefill. */
  lemma {:induction false} AdmitResumes(
      job: Job, tr: Trace, run: seq<Req>, wait: seq<Req>, received: nat, fifo: bool, bs: seq<seq<Prompt>>)
    requires RoundInv(job, tr, run, wait, received, fifo) && ResumeInv(tr, run)
    requires PackedAs(job, Admit(job.lim, run, wait, Blocks(run, 0, job.lim.blockSize)).prompts, bs)
    ensures BatchesFor(bs, |tr.progress|)
    ensures ResumeInv(PrefillAll(tr, bs), Admit(job.lim, run, wait, Blocks(run, 0, job.lim.blockSize)).run)
  {
    var used := Blocks(run, 0, job.lim.blockSize);
    AdmitKeeps(job, run, wait, received, DoneOf(tr.progress), fifo);
    var a := Admit(job.lim, run, wait, used);
    assert Admitted(job, run, wait, received, DoneOf(tr.progress), fifo, a);
    WaitingReady(job, tr, run, a.prompts, a.wait, received, fifo);
    PrefillAllResumes(job, tr, bs);
    AdmittedFrom(job.lim, run, wait, used);
    var tr' := PrefillAll(tr, bs);
    forall k | 0 <= k < |a.run|
      ensures a.run[k].id < |tr'.progress| && UpToDate(tr'.progress[a.run[k].id], tr'.steps)
    {
      var id := a.run[k].id;
      PresentIsId(a.prompts, id);
      if Present(run, id) {
        var c :| 0 <= c < |run| && run[c].id == id;
        assert UpToDate(tr.progress[run[c].id], tr.steps);
      } else {
        var c :| 0 <= c < |a.prompts| && a.prompts[c].id == id;
      }
    }
  }

  // ----- decode

  lemma {:induction false} DecodedRequest(job: Job, tr: Trace, run: seq<Req>, k: nat, i: nat)
    requires RangesCanonical(tr) && TableReady(job, tr, run) && k >= 1 && i < |tr.progress|
    ensures var r, r', n := tr.progress[i], Decode(tr, run, k).progress[i], |tr.steps|;
            && (forall t :: t < n ==> (Attends(r', t) <==> Attends(r, t)))
            && (forall t :: n <= t < n + k ==> (Attends(r', t) <==> Present(run, i)))
            && (Present(run, i) ==> r' != [] && r'[|r'| - 1] == n + k - 1)
            && (!Present(run, i) ==> r' == r)
  {
    var ids, n := Ids(AsPrompts(run)), |tr.steps|;
    StoreAllAt(tr.progress, ids, n, n + k - 1, i);
    AddRangeFacts(tr.progress[i], n, n + k - 1);
    CanonicalFacts(tr.progress[i], n);
    PresentIsId(run, i);
  }

  /** A decode jump resumes everyone at its first step. */
  lemma {:induction false} JumpResumes(job: Job, tr: Trace, run: seq<Req>, k: nat)
    requires RangesCanonical(tr) && TableReady(job, tr, run) && k >= 1 && ResumeInv(tr, run)
    ensures DecodesResume(Decode(tr, run, k))
    ensures forall c :: 0 <= c < |run| ==> UpToDate(Decode(tr, run, k).progress[run[c].id], Decode(tr, run, k).steps)
  {
    var tr', n := Decode(tr, run, k), |tr.steps|;
    forall i, s | 0 <= i < |tr'.progress| && 0 <= s < |tr'.steps| && !tr'.steps[s] && Attends(tr'.progress[i], s)
      ensures ResumesAt(tr'.progress[i], tr'.steps, s)
    {
      DecodedRequest(job, tr, run, k, i);
      var r, r' := tr.progress[i], tr'.progress[i];
      forall u | 0 <= u < s && !tr'.steps[u] && (forall t :: u < t < s ==> !Attends(r', t)) ensures Attends(r', u) {
        if s < n {
          assert ResumesAt(r, tr.steps, s);
          assert forall t :: u < t < s ==> (Attends(r', t) <==> Attends(r, t));
        } else if u < n {
          assert s > n ==> Attends(r', n);
          var c :| 0 <= c < |run| && run[c].id == i;
          assert UpToDate(r, tr.steps);
          AttendsLast(r, n);
          var last := r[|r| - 1];
          assert Attends(r', last);
          assert last <= u;
        }
      }
    }
    forall c | 0 <= c < |run| ensures UpToDate(tr'.progress[run[c].id], tr'.steps) {
      assert Present(run, run[c].id);
      DecodedRequest(job, tr, run, k, run[c].id);
    }
  }

  /** Decode steps and compaction. */
  lemma {:induction false} DecodeResumes(
      job: Job, tr: Trace, run: seq<Req>, wait: seq<Req>, received: nat, fifo: bool, k: nat)
    requires Consistent(job, tr, run, wait, received, fifo) && ResumeInv(tr, run) && run != [] && k >= 1
    ensures InRange(Ids(AsPrompts(run)), |tr.progress|)
    ensures ResumeInv(Decode(tr, run, k), Unfinished(Advance(run, k)))
  {
    RunReady(job, tr, run, wait, received, fifo);
    JumpResumes(job, tr, run, k);
    var left := Unfinished(Advance(run, k));
    var at := UnfinishedPicks(Advance(run, k));
    forall c | 0 <= c < |left|
      ensures left[c].id < |tr.progress| && UpToDate(Decode(tr, run, k).progress[left[c].id], Decode(tr, run, k).steps)
    {
      assert left[c].id == run[at[c]].id;
    }
  }
}
