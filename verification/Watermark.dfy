/** Who is admitted, in plain arithmetic: a prompt is admitted while at least one percent of the cache
    blocks would stay free with it, and the first one that would break this ends the admission. */
module Watermark {
  import opened Requests
  import opened TraceInvariant
  import opened Queues
  import opened Simulation

  /** Blocks that the admitted prompts keep: one that is finished by its prefill keeps none. */
  function BlocksKept(prompts: seq<Req>, bs: int): int
    requires bs >= 1
  {
    if prompts == [] then 0
    else (if prompts[0].rem == 1 then 0 else CeilDiv(prompts[0].len, bs)) + BlocksKept(prompts[1..], bs)
  }

  /** The admitted requests that go on after their prefill, one token longer and one token less to go. */
  function GoingOn(prompts: seq<Req>): (g: seq<Req>)
    ensures |g| <= |prompts|
  {
    if prompts == [] then []
    else
      (if prompts[0].rem == 1 then [] else [Req(prompts[0].id, prompts[0].len + 1, prompts[0].rem - 1)])
      + GoingOn(prompts[1..])
  }

  /** With one more token, and with the whole prompt, one percent of the blocks would stay free. */
  ghost predicate OnePercentFree(lim: Limits, used: int, len: int)
    requires lim.blockSize >= 1
  {
    && 100 * (lim.maxBlocks - used - CeilDiv(1, lim.blockSize)) >= lim.maxBlocks
    && 100 * (lim.maxBlocks - used - CeilDiv(len, lim.blockSize)) >= lim.maxBlocks
  }

  /** Prompt k at its turn: the table has a free place, and with the prompt one percent stays free. */
  ghost predicate FitsAtTurn(lim: Limits, run: seq<Req>, prompts: seq<Req>, used: int, k: nat)
    requires lim.blockSize >= 1 && k < |prompts|
  {
    && |run| + |GoingOn(prompts[..k])| < lim.maxSeqs
    && OnePercentFree(lim, used + BlocksKept(prompts[..k], lim.blockSize), prompts[k].len)
  }

  /** The longest prefix of the waiting list whose every prompt fits at its turn has been admitted. */
  ghost predicate AdmittedExactly(lim: Limits, run: seq<Req>, wait: seq<Req>, used: int, a: Admission)
    requires lim.blockSize >= 1
  {
    && wait == a.prompts + a.wait && a.run == run + GoingOn(a.prompts)
    && (forall k :: 0 <= k < |a.prompts| ==> FitsAtTurn(lim, run, a.prompts, used, k))
    && (a.wait != [] && |a.run| < lim.maxSeqs ==>
          !OnePercentFree(lim, used + BlocksKept(a.prompts, lim.blockSize), a.wait[0].len))
  }

  lemma {:induction false} FitsLater(
      lim: Limits, run: seq<Req>, r: Req, run': seq<Req>, prompts: seq<Req>, used: int, used': int, k: nat)
    requires lim.blockSize >= 1 && k < |prompts| && run' == run + GoingOn([r])
    requires used' == used + (if r.rem == 1 then 0 else CeilDiv(r.len, lim.blockSize))
    requires FitsAtTurn(lim, run', prompts, used', k)
    ensures FitsAtTurn(lim, run, [r] + prompts, used, k + 1)
  {
    var all := ([r] + prompts)[..k + 1];
    assert all[0] == r && all[1..] == prompts[..k];
    assert [r][1..] == [];
  }

  lemma {:induction false} OneMoreAdmitted(
      lim: Limits, run: seq<Req>, wait: seq<Req>, used: int, run': seq<Req>, used': int, rest: Admission)
    requires lim.blockSize >= 1 && wait != [] && |run| < lim.maxSeqs && OnePercentFree(lim, used, wait[0].len)
    requires used' == used + (if wait[0].rem == 1 then 0 else CeilDiv(wait[0].len, lim.blockSize))
    requires run' == run + GoingOn([wait[0]]) && AdmittedExactly(lim, run', wait[1..], used', rest)
    ensures AdmittedExactly(lim, run, wait, used, Admission(rest.run, rest.wait, [wait[0]] + rest.prompts))
  {
    var r, prompts := wait[0], [wait[0]] + rest.prompts;
    assert prompts[0] == r && prompts[1..] == rest.prompts && [r][1..] == [];
    assert wait == [r] + wait[1..];
    forall k | 0 <= k < |prompts| ensures FitsAtTurn(lim, run, prompts, used, k) {
      if k == 0 {
        assert prompts[..0] == [];
      } else {
        FitsLater(lim, run, r, run', rest.prompts, used, used', k - 1);
      }
    }
  }

  lemma {:induction false} EnteredGoesOn(run: seq<Req>, r: Req)
    ensures Entered(run, r) == run + GoingOn([r])
  {
    assert [r][1..] == [];
  }

  /** What admission does. */
  lemma {:induction false} AdmitExact(lim: Limits, run: seq<Req>, wait: seq<Req>, used: int)
    requires lim.blockSize >= 1
    ensures AdmittedExactly(lim, run, wait, used, Admit(lim, run, wait, used))
    decreases |wait|
  {
    if CanAdmit(lim, run, wait, used) {
      var used' := used + (if wait[0].rem == 1 then 0 else CeilDiv(wait[0].len, lim.blockSize));
      AdmitUnfolds(lim, run, wait, used);
      EnteredGoesOn(run, wait[0]);
      AdmitExact(lim, Entered(run, wait[0]), wait[1..], used');
      OneMoreAdmitted(lim, run, wait, used, Entered(run, wait[0]), used',
                      Admit(lim, Entered(run, wait[0]), wait[1..], used'));
    } else {
      NoneAdmitted(lim, run, wait, used);
    }
  }

  lemma {:induction false} NoneAdmitted(lim: Limits, run: seq<Req>, wait: seq<Req>, used: int)
    requires lim.blockSize >= 1 && !CanAdmit(lim, run, wait, used)
    ensures AdmittedExactly(lim, run, wait, used, Admission(run, wait, []))
  {
    assert wait == [] + wait && run == run + GoingOn([]);
  }

  /** In a round the blocks in use are those of the running requests, before and after. */
  lemma {:induction false} RoundAdmits(job: Job, st: SimState, received: nat, fifo: bool)
    requires StateInv(job, st, received, fifo)
    ensures var used := Blocks(st.run, 0, job.lim.blockSize);
            && AdmittedExactly(job.lim, st.run, st.wait, used, Admitting(job.lim, st))
            && BlocksKept(Admitting(job.lim, st).prompts, job.lim.blockSize) + used
               == Blocks(Admitting(job.lim, st).run, 0, job.lim.blockSize)
  {
    var used, a := Blocks(st.run, 0, job.lim.blockSize), Admitting(job.lim, st);
    AdmitExact(job.lim, st.run, st.wait, used);
    KeptBlocks(job.lim, st.run, a.prompts);
  }

  lemma {:induction false} Regroup(run: seq<Req>, r: Req, g: seq<Req>)
    ensures run + ([r] + g) == (run + [r]) + g
  {
  }

  lemma {:induction false} KeptBlocks(lim: Limits, run: seq<Req>, prompts: seq<Req>)
    requires lim.blockSize >= 1
    ensures Blocks(run + GoingOn(prompts), 0, lim.blockSize)
            == Blocks(run, 0, lim.blockSize) + BlocksKept(prompts, lim.blockSize)
    decreases |prompts|
  {
    if prompts == [] {
      assert run + GoingOn([]) == run;
    } else if prompts[0].rem == 1 {
      KeptBlocks(lim, run, prompts[1..]);
      assert GoingOn(prompts) == GoingOn(prompts[1..]);
    } else {
      var r := Req(prompts[0].id, prompts[0].len + 1, prompts[0].rem - 1);
      KeptBlocks(lim, run + [r], prompts[1..]);
      BlocksAppend(run, r, 0, lim.blockSize);
      var g := GoingOn(prompts[1..]);
      assert GoingOn(prompts) == [r] + g;
      Regroup(run, r, g);
    }
  }
}
