/** Why restarting is exact only once in general: a concrete schedule whose second restart leaves
    ranges beyond the end of the schedule. */
module RestartTwice {
  import opened Lists
  import opened Requests
  import opened DecodeJump
  import opened Packing
  import opened Ranges
  import opened Traces
  import opened TraceInvariant
  import opened Queues
  import opened Simulation
  import opened Offline
  import opened RestartPlan
  import opened Restart
  import opened RestartScan
  import opened RestartShape

  // Two requests: the first was prefilled again by a restart and sits out the second iteration,
  // which prefills the other one; both decode at the end.
  const AGAIN: seq<seq<Rng>> := [[Rng(0, 0), Rng(3, 3)], [Rng(1, 3)]]
  const AGAIN_STEPS: seq<bool> := [true, true, false, false]

  // Where it comes from: two prompts of three tokens do not fit one prefill batch of five.
  const BUDGET: int := 5
  const JOB: Job := Job([3, 3], [3, 3], Limits(2, 10, BUDGET, 16))
  const ONCE: seq<seq<Rng>> := [[Rng(0, 0), Rng(2, 3)], [Rng(1, 3)]]

  // ----- the simulated schedule

  lemma {:induction false} JobServable()
    ensures AllServableJob(JOB)
  {
    assert CeilDiv(5, 16) == 1;
  }

  lemma {:induction false} BothAdmitted()
    ensures Start(JOB).wait == [Req(0, 3, 3), Req(1, 3, 3)]
    ensures Admitting(JOB.lim, Start(JOB))
            == Admission([Req(0, 4, 2), Req(1, 4, 2)], [], [Req(0, 3, 3), Req(1, 3, 3)])
  {
    var lim, w := JOB.lim, Start(JOB).wait;
    assert w == [Req(0, 3, 3), Req(1, 3, 3)];
    assert CeilDiv(1, 16) == 1 && CeilDiv(3, 16) == 1;
    assert w[1..] == [Req(1, 3, 3)] && w[1..][1..] == [];
    assert [] + [Req(0, 4, 2)] == [Req(0, 4, 2)];
    assert Admit(lim, [Req(0, 4, 2), Req(1, 4, 2)], [], 2) == Admission([Req(0, 4, 2), Req(1, 4, 2)], [], []);
    assert [Req(0, 4, 2)] + [Req(1, 4, 2)] == [Req(0, 4, 2), Req(1, 4, 2)];
    assert Admit(lim, [Req(0, 4, 2)], [Req(1, 3, 3)], 1)
        == Admission([Req(0, 4, 2), Req(1, 4, 2)], [], [Req(1, 3, 3)]);
    assert Blocks([], 0, 16) == 0;
  }

  lemma {:induction false} TwoBatches()
    ensures Pack([Prompt(0, 3), Prompt(1, 3)], BUDGET) == Batches([[Prompt(0, 3)], [Prompt(1, 3)]])
  {
    var p, q := Prompt(0, 3), Prompt(1, 3);
    assert [p, q][1..] == [q] && [q][1..] == [];
    assert [p] + [q] == [p, q] && [p, q][..1] == [p];
    assert MaxLen([p]) == 3 && MaxLen([p, q]) == 3;
    assert Greedy([q], [], BUDGET) == [[q]];
    assert [[p]] + [[q]] == [[p], [q]];
  }

  /** The progress and the flags after both prefills. */
  lemma {:induction false} BothPrefilled(tr: Trace) returns (tr': Trace)
    requires tr == EmptyTrace(2)
    ensures BatchesFor([[Prompt(0, 3)], [Prompt(1, 3)]], 2)
    ensures tr' == PrefillAll(tr, [[Prompt(0, 3)], [Prompt(1, 3)]])
    ensures tr'.progress == [[0, 0], [1, 1]] && tr'.steps == [true, true]
  {
    var bs := [[Prompt(0, 3)], [Prompt(1, 3)]];
    assert bs[1..] == [[Prompt(1, 3)]] && bs[1..][1..] == [];
    assert Ids([Prompt(0, 3)]) == [0] && Ids([Prompt(1, 3)]) == [1];
    assert [0][..0] == [] && [1][..0] == [];
    assert StoreAll([[], []], [], 0, 0) == [[], []] && StoreAll([[0, 0], []], [], 1, 1) == [[0, 0], []];
    var tr1 := Prefill(tr, bs[0]);
    assert tr1.progress == [[0, 0], []] && tr1.steps == [true];
    tr' := Prefill(tr1, bs[1]);
    assert PrefillAll(tr', []) == tr';
  }

  lemma {:induction false} BothKept()
    ensures Kept(JOB.lim, [Req(0, 4, 2), Req(1, 4, 2)]) == 2
    ensures IterNum([Req(0, 4, 2), Req(1, 4, 2)], Blocks([Req(0, 4, 2), Req(1, 4, 2)], 0, 16), JOB.lim) == 2
  {
    var run := [Req(0, 4, 2), Req(1, 4, 2)];
    assert run[..0] == [] && run[..1] == [Req(0, 4, 2)] && run[..1][..0] == [];
    assert CeilDiv(3, 16) == 1 && CeilDiv(4, 16) == 1 && CeilDiv(5, 16) == 1;
    assert MinRem(run) == 2;
    assert Blocks(run, 0, 16) == 2 && Blocks(run, 2, 16) == 2;
    JumpExact(run, JOB.lim);
  }

  lemma {:induction false} BothDecoded(tr: Trace) returns (tr': Trace)
    requires tr.progress == [[0, 0], [1, 1]] && tr.steps == [true, true]
    ensures InRange(Ids(AsPrompts([Req(0, 4, 2), Req(1, 4, 2)])), 2)
    ensures tr' == Decode(tr, [Req(0, 4, 2), Req(1, 4, 2)], 2)
    ensures tr'.progress == [[0, 0, 2, 3], [1, 3]] && tr'.steps == AGAIN_STEPS
    ensures Unfinished(Advance([Req(0, 4, 2), Req(1, 4, 2)], 2)) == []
  {
    var run := [Req(0, 4, 2), Req(1, 4, 2)];
    assert Ids(AsPrompts(run)) == [0, 1] && [0, 1][..1] == [0] && [0][..0] == [];
    assert StoreAll(tr.progress, [], 2, 3) == tr.progress;
    assert AddRange([0, 0], 2, 3) == [0, 0, 2, 3];
    assert StoreAll(tr.progress, [0], 2, 3) == [[0, 0, 2, 3], [1, 1]];
    assert [1, 1][1 := 3] == [1, 3];
    assert StoreAll(tr.progress, [0, 1], 2, 3) == [[0, 0, 2, 3], [1, 3]];
    tr' := Decode(tr, run, 2);
    assert seq(2, _ => false) == [false, false];
    var done := [Req(0, 6, 0), Req(1, 6, 0)];
    assert Advance(run, 2) == done && done[..1] == [Req(0, 6, 0)] && done[..1][..0] == [];
  }

  lemma {:induction false} OncePrefilled() returns (tr: Trace)
    requires CanPrefill(JOB.lim, Start(JOB))
    ensures Prefilling(JOB.lim, Start(JOB)) == SimState([Req(0, 4, 2), Req(1, 4, 2)], [], tr)
    ensures tr.progress == [[0, 0], [1, 1]] && tr.steps == [true, true]
  {
    BothAdmitted();
    TwoBatches();
    assert AsPrompts([Req(0, 3, 3), Req(1, 3, 3)]) == [Prompt(0, 3), Prompt(1, 3)];
    tr := BothPrefilled(EmptyTrace(2));
  }

  lemma {:induction false} OnceDecoded(st: SimState)
    requires st.run == [Req(0, 4, 2), Req(1, 4, 2)] && st.wait == [] && st.tr.progress == [[0, 0], [1, 1]]
    requires st.tr.steps == [true, true]
    ensures Preempting(JOB.lim, st) == st && CanDecode(st) && Steps(JOB.lim, st) == 2
    ensures var st' := Decoding(st, 2);
            Ended(st') && st'.tr.progress == [[0, 0, 2, 3], [1, 3]] && st'.tr.steps == AGAIN_STEPS
  {
    BothKept();
    assert st.run[..2] == st.run && st.run[2..] + st.wait == [];
    var tr' := BothDecoded(st.tr);
  }

  /** One round does it: both prefills, then two decode steps for both. */
  lemma {:induction false} OnceRound()
    ensures CanRound(JOB.lim, Start(JOB))
    ensures var st := RoundOf(JOB.lim, Start(JOB));
            Ended(st) && st.tr.progress == [[0, 0, 2, 3], [1, 3]] && st.tr.steps == AGAIN_STEPS
  {
    JobServable();
    Starts(JOB);
    RoundKeeps(JOB, Start(JOB));
    var tr := OncePrefilled();
    OnceDecoded(SimState([Req(0, 4, 2), Req(1, 4, 2)], [], tr));
  }

  lemma {:induction false} OnceFinished() returns (st: SimState)
    ensures AllServableJob(JOB) && Between(JOB, Start(JOB)) && st == Finish(JOB, Start(JOB))
    ensures st.tr.progress == [[0, 0, 2, 3], [1, 3]] && st.tr.steps == AGAIN_STEPS
  {
    JobServable();
    Starts(JOB);
    BothAdmitted();
    OnceRound();
    OneRoundEnough(JOB, Start(JOB));
    st := RoundOf(JOB.lim, Start(JOB));
  }

  /** The simulator without arrivals produces the schedule above. */
  lemma {:induction false} OnceSimulated()
    ensures AllServableJob(JOB) && Between(JOB, Start(JOB))
    ensures var tr := Finish(JOB, Start(JOB)).tr; PlanOf(tr) == ONCE && tr.steps == AGAIN_STEPS
  {
    var st := OnceFinished();
    OncePairs();
  }

  lemma {:induction false} OncePairs()
    ensures Pairs([0, 0, 2, 3]) == ONCE[0] && Pairs([1, 3]) == ONCE[1]
  {
    assert [0, 0, 2, 3][..2] == [0, 0] && [0, 0][..0] == [] && [1, 3][..0] == [];
    assert Pairs([0, 0]) == [Rng(0, 0)];
  }

  // ----- its first restart

  /** Restarting that schedule after its first iteration gives the plan above. */
  lemma {:induction false} OnceRestarted()
    ensures Restartable([3, 3], ONCE, AGAIN_STEPS, 0, BUDGET)
    ensures RebuiltPlan([3, 3], ONCE, AGAIN_STEPS, 0, BUDGET) == AGAIN
    ensures RebuiltSteps([3, 3], ONCE, AGAIN_STEPS, 0, BUDGET) == AGAIN_STEPS
  {
    OnceCut();
    OncePlan();
    OnceBatches();
    OnceLoop();
    OnceTrimmed();
    assert seq(1, _ => true) == [true];
  }

  lemma {:induction false} OncePlan()
    ensures Restartable([3, 3], ONCE, AGAIN_STEPS, 0, BUDGET)
    ensures RebuiltPlan([3, 3], ONCE, AGAIN_STEPS, 0, BUDGET) == AGAIN
  {
    OnceBatches();
    OnceLoop();
    OnceSlots();
    var slot0, skip := RebuiltAt([3, 3], ONCE, AGAIN_STEPS, 0, BUDGET, 0);
    var slot1, _ := RebuiltAt([3, 3], ONCE, AGAIN_STEPS, 0, BUDGET, 1);
    OnceRejoined(slot0);
    var p := RebuiltPlan([3, 3], ONCE, AGAIN_STEPS, 0, BUDGET);
    assert p[0] == AGAIN[0] && p[1] == AGAIN[1];
  }

  lemma {:induction false} OnceSlots()
    ensures Restartable([3, 3], ONCE, AGAIN_STEPS, 0, BUDGET)
    ensures BatchesFor(RecoveryBatches([3, 3], ONCE, AGAIN_STEPS, 0, BUDGET), 2)
    ensures var slots := RecoveryTrace(2, RecoveryBatches([3, 3], ONCE, AGAIN_STEPS, 0, BUDGET)).progress;
            |slots| == 2 && |slots[0]| == 2 && slots[0][0] == 0 && slots[1] == []
  {
    OnceCut();
    OnceRunning();
    OnceBatches();
    RecoveryPacks([3, 3], ONCE, AGAIN_STEPS, 0, BUDGET);
    assert RunningAfter(ONCE, AGAIN_STEPS, 0, 0) && !RunningAfter(ONCE, AGAIN_STEPS, 0, 1);
  }

  lemma {:induction false} OnceRejoined(slot: seq<int>)
    requires |slot| == 2 && slot[0] == 0
    ensures Rejoined([Rng(2, 2)], slot, 1) == [Rng(0, 0), Rng(3, 3)]
    ensures Rejoined([Rng(0, 2)], [], 1) == [Rng(1, 3)]
  {
    assert Plus([Rng(2, 2)], 1) == [Rng(3, 3)] && Plus([Rng(0, 2)], 1) == [Rng(1, 3)];
  }

  lemma {:induction false} OnceCut()
    ensures Restartable([3, 3], ONCE, AGAIN_STEPS, 0, BUDGET)
    ensures Cut([Rng(0, 0), Rng(2, 3)], 0) == [Rng(1, 2)] && Cut([Rng(1, 3)], 0) == [Rng(0, 2)]
  {
    assert [Rng(0, 0), Rng(2, 3)][1..] == [Rng(2, 3)] && [Rng(2, 3)][1..] == [] && [Rng(1, 3)][1..] == [];
    assert Cut([Rng(2, 3)], 0) == [Rng(1, 2)];
    assert Count([Rng(2, 3)]) == 2;
    assert Count([Rng(0, 0), Rng(2, 3)]) == 3 && Count([Rng(1, 3)]) == 3;
  }

  lemma {:induction false} OnceTrimmed()
    ensures RunningIds(ONCE, AGAIN_STEPS, 0, 2) == [0]
    ensures FirstIters(ONCE, AGAIN_STEPS, 0) == [1]
    ensures Trimmed(ONCE, AGAIN_STEPS, 0) == [[Rng(2, 2)], [Rng(0, 2)]]
  {
    OnceRunning();
    assert FirstStarts(ONCE, [0], 0) == [1];
    assert Values(Unique([1])) == [1] by {
      assert [1][..0] == [];
      assert Unique([]) == [];
    }
    assert DropFirst([Rng(1, 2)]) == [Rng(2, 2)];
  }

  lemma {:induction false} OnceRunning()
    ensures Cut(ONCE[0], 0) == [Rng(1, 2)] && Cut(ONCE[1], 0) == [Rng(0, 2)]
    ensures RunningAfter(ONCE, AGAIN_STEPS, 0, 0) && !RunningAfter(ONCE, AGAIN_STEPS, 0, 1)
    ensures RunningIds(ONCE, AGAIN_STEPS, 0, 2) == [0]
  {
    OnceCut();
    assert RunningIds(ONCE, AGAIN_STEPS, 0, 0) == [];
    assert RunningIds(ONCE, AGAIN_STEPS, 0, 1) == [0];
  }

  lemma {:induction false} OnceBatches()
    ensures |RecoveryBatches([3, 3], ONCE, AGAIN_STEPS, 0, BUDGET)| == 1
  {
    OnceCut();
    OnceRunning();
    RecoveryPacks([3, 3], ONCE, AGAIN_STEPS, 0, BUDGET);
    var ps := Recovery([3, 3], ONCE, [0], 0);
    assert ps == [ps[0]];
  }

  lemma {:induction false} OnceLoop()
    ensures LeftOver(ONCE, AGAIN_STEPS, 0) == [[Rng(2, 2)], [Rng(0, 2)]]
    ensures DeleteEntries([true] + AGAIN_STEPS[1..], [[Rng(2, 2)], [Rng(0, 2)]], [1], 1) == AGAIN_STEPS
  {
    OnceTrimmed();
    var t0: seq<seq<Rng>> := [[Rng(2, 2)], [Rng(0, 2)]];
    assert [1][..0] == [] && DeleteIdle(t0, []) == t0;
    assert t0[1][0] == Rng(0, 2);
    assert Covers(t0[1], 1) && Attended(t0, 1);
    assert DeleteEntries([true] + AGAIN_STEPS[1..], t0, [], 1) == [true] + AGAIN_STEPS[1..] == AGAIN_STEPS;
  }

  // ----- and the second one

  lemma {:induction false} AgainCut()
    ensures Cut([Rng(0, 0), Rng(3, 3)], 1) == [Rng(1, 1)] && Cut([Rng(1, 3)], 1) == [Rng(0, 1)]
    ensures Count([Rng(0, 0), Rng(3, 3)]) == 2 && Count([Rng(1, 3)]) == 3
  {
    assert [Rng(0, 0), Rng(3, 3)][1..] == [Rng(3, 3)] && [Rng(3, 3)][1..] == [] && [Rng(1, 3)][1..] == [];
    assert Cut([Rng(3, 3)], 1) == [Rng(1, 1)];
    assert Count([Rng(3, 3)]) == 1;
  }

  lemma {:induction false} AgainFirsts()
    ensures RunningAfter(AGAIN, AGAIN_STEPS, 1, 0) && RunningAfter(AGAIN, AGAIN_STEPS, 1, 1)
    ensures FirstIters(AGAIN, AGAIN_STEPS, 1) == [0, 1]
  {
    AgainCut();
    assert RunningIds(AGAIN, AGAIN_STEPS, 1, 0) == [];
    assert RunningIds(AGAIN, AGAIN_STEPS, 1, 1) == [0];
    assert RunningIds(AGAIN, AGAIN_STEPS, 1, 2) == [0, 1];
    assert FirstStarts(AGAIN, [0, 1], 1) == [1, 0];
    OneThenZero();
  }

  lemma {:induction false} OneThenZero()
    ensures Values(Unique([1, 0])) == [0, 1]
  {
    assert [1, 0][..1] == [1] && [1][..0] == [];
    assert Unique([]) == [];
    assert Unique([1]) == [Bin(1, 1)];
    assert Unique([1, 0]) == [Bin(0, 1), Bin(1, 1)];
  }

  lemma {:induction false} AgainTrimmed()
    ensures Trimmed(AGAIN, AGAIN_STEPS, 1) == [[], [Rng(1, 1)]]
  {
    AgainCut();
    AgainFirsts();
    assert DropFirst([Rng(1, 1)]) == [] && DropFirst([Rng(0, 1)]) == [Rng(1, 1)];
  }

  /** The second candidate is read one too far, behind the last attended position. */
  lemma {:induction false} AgainLate()
    ensures var t0: seq<seq<Rng>> := [[], [Rng(1, 1)]];
            Reads(t0, [0, 1]) == [0, 2] && PlanEnd(t0) == 2 && !InTime([0, 1], Reads(t0, [0, 1]), PlanEnd(t0))
  {
    var t0: seq<seq<Rng>> := [[], [Rng(1, 1)]];
    assert t0[1][0] == Rng(1, 1);
    assert !Attended(t0, 0);
    assert [0, 1][..1] == [0] && [0][..0] == [];
    assert Reads(t0, []) == [] && Reads(t0, [0]) == [0];
    IdleMore(t0, [], 0);
    assert [] + [0] == [0];
    assert Ordered(t0[1], 0, 2) && Covers(t0[1], 1);
    EndUnique(t0, 2);
  }

  lemma {:induction false} AgainRestartable()
    ensures Restartable([4, 3], AGAIN, AGAIN_STEPS, 1, BUDGET) && FullyAttended(AGAIN, 0, 4)
  {
    AgainCut();
    var a, b := AGAIN[0], AGAIN[1];
    assert a[0] == Rng(0, 0) && b[0] == Rng(1, 3);
    assert Covers(a, 0);
    assert forall t :: 1 <= t < 4 ==> Covers(b, t);
  }

  /** Restarting a restarted schedule can leave ranges that stick out of the schedule: the loop goes
      on with first iterations that an earlier deletion has already moved. */
  lemma {:induction false} RestartAgainSticksOut()
    ensures Restartable([4, 3], AGAIN, AGAIN_STEPS, 1, BUDGET) && FullyAttended(AGAIN, 0, 4)
    ensures !PlanOrdered(RebuiltPlan([4, 3], AGAIN, AGAIN_STEPS, 1, BUDGET),
                         |RebuiltSteps([4, 3], AGAIN, AGAIN_STEPS, 1, BUDGET)|)
  {
    AgainRestartable();
    AgainTrimmed();
    AgainFirsts();
    AgainLate();
    RestartAssertionIff([4, 3], AGAIN, AGAIN_STEPS, 1, BUDGET, [[], [Rng(1, 1)]], [0, 1]);
  }
}
