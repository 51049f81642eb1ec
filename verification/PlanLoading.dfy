/** The loading loop on the plan states themselves. */
module PlanLoading {
  import opened Lists
  import opened GpuUnits
  import opened Loading
  import opened PlanStates

  datatype Slot = Slot(launched: bool, gpus: seq<nat>)

  function SlotsOf(states: seq<PlanState>): (v: seq<Slot>)
    reads states
    ensures |v| == |states| && forall i :: 0 <= i < |v| ==> v[i] == Slot(states[i].launched, states[i].gpus)
  {
    seq(|states|, i requires 0 <= i < |states| reads states => Slot(states[i].launched, states[i].gpus))
  }

  function CandsOf(states: seq<PlanState>, slots: seq<Slot>): (v: seq<Cand>)
    requires |slots| == |states|
    ensures |v| == |states| && forall i :: 0 <= i < |v| ==>
              v[i] == Cand(states[i].plan, slots[i].launched, slots[i].gpus)
  {
    seq(|states|, i requires 0 <= i < |states| => Cand(states[i].plan, slots[i].launched, slots[i].gpus))
  }

  /** The states after some grants. */
  function After(slots: seq<Slot>, grants: seq<Grant>): (v: seq<Slot>)
    requires forall k :: 0 <= k < |grants| ==> grants[k].cand < |slots|
    ensures |v| == |slots|
    decreases |grants|
  {
    if grants == [] then slots
    else
      var last := |grants| - 1;
      After(slots, grants[..last])[grants[last].cand := Slot(true, grants[last].gpus)]
  }

  lemma {:induction false} AfterElse(slots: seq<Slot>, grants: seq<Grant>, i: nat)
    requires forall k :: 0 <= k < |grants| ==> grants[k].cand < |slots| && grants[k].cand != i
    requires i < |slots|
    ensures After(slots, grants)[i] == slots[i]
    decreases |grants|
  {
    if grants != [] {
      AfterElse(slots, grants[..|grants| - 1], i);
    }
  }

  function Chosen(states: seq<PlanState>, grants: seq<Grant>): (r: seq<PlanState>)
    requires forall k :: 0 <= k < |grants| ==> grants[k].cand < |states|
    ensures |r| == |grants| && forall k :: 0 <= k < |r| ==> r[k] == states[grants[k].cand]
  {
    seq(|grants|, k requires 0 <= k < |grants| => states[grants[k].cand])
  }

  datatype Decision = Decided(grants: seq<Grant>, rejected: seq<nat>, free: seq<nat>) | Stuck

  /** The loop with what it has decided so far. */
  function Decide(
      cands: seq<Cand>, pending: seq<nat>, free: seq<nat>, ids: set<nat>, largestFirst: bool, grants: seq<Grant>,
      rejected: seq<nat>)
    : Decision
    requires InRange(pending, |cands|)
    decreases |pending|
  {
    if pending == [] then Decided(grants, rejected, free)
    else
      var choice := Choice(cands, pending, largestFirst);
      if choice == [] then Stuck
      else
        var i := choice[0];
        RemoveInRange(pending, i, |cands|);
        assert i in choice;
        var step := StepOf(cands[i], free, ids);
        Decide(cands, Remove(pending, i), FreeAfter(step, free), IdsAfter(step, cands[i], ids), largestFirst,
               GrantsAfter(step, i, grants), RejectedAfter(step, cands[i], i, rejected))
  }

  function GrantsAfter(step: Step, i: nat, grants: seq<Grant>): seq<Grant> {
    if step.Run? then grants + [Grant(i, step.gpus)] else grants
  }

  function RejectedAfter(step: Step, c: Cand, i: nat, rejected: seq<nat>): seq<nat> {
    if step.TooLarge? && !c.launched then rejected + [i] else rejected
  }

  lemma {:induction false} Shift<T>(a: seq<T>, b: seq<T>, c: seq<T>)
    ensures a + (b + c) == (a + b) + c
    ensures [] + a == a == a + []
  {
  }

  function AsDecision(l: Loaded, grants: seq<Grant>, rejected: seq<nat>): Decision {
    if l.NoRoot? then Stuck else Decided(grants + l.grants, rejected + l.rejected, l.rest)
  }

  /** Deciding step by step gives what the specification says. */
  lemma {:induction false} DecideIsLoad(
      cands: seq<Cand>, pending: seq<nat>, free: seq<nat>, ids: set<nat>, largestFirst: bool, grants: seq<Grant>,
      rejected: seq<nat>)
    requires InRange(pending, |cands|)
    ensures Decide(cands, pending, free, ids, largestFirst, grants, rejected)
            == AsDecision(Load(cands, pending, free, ids, largestFirst), grants, rejected)
    decreases |pending|
  {
    if pending == [] {
      Shift(grants, [], []);
      Shift(rejected, [], []);
    } else if Choice(cands, pending, largestFirst) != [] {
      var i := Choice(cands, pending, largestFirst)[0];
      assert i in Choice(cands, pending, largestFirst);
      RemoveInRange(pending, i, |cands|);
      var step := StepOf(cands[i], free, ids);
      var t := Load(cands, Remove(pending, i), FreeAfter(step, free), IdsAfter(step, cands[i], ids), largestFirst);
      DecideIsLoad(cands, Remove(pending, i), FreeAfter(step, free), IdsAfter(step, cands[i], ids), largestFirst,
                   GrantsAfter(step, i, grants), RejectedAfter(step, cands[i], i, rejected));
      if t.Loaded? {
        Shift(grants, if step.Run? then [Grant(i, step.gpus)] else [], t.grants);
        Shift(grants, [], t.grants);
        Shift(rejected, if step.TooLarge? && !cands[i].launched then [i] else [], t.rejected);
        Shift(rejected, [], t.rejected);
      }
    }
  }

  /** The decided candidates are no longer pending. */
  ghost predicate Behind(cands: seq<Cand>, pending: seq<nat>, grants: seq<Grant>, rejected: seq<nat>) {
    && InRange(pending, |cands|) && InRange(rejected, |cands|)
    && forall k :: 0 <= k < |grants| ==> grants[k].cand < |cands| && grants[k].cand !in pending
  }

  lemma {:induction false} BehindStep(
      cands: seq<Cand>, pending: seq<nat>, grants: seq<Grant>, rejected: seq<nat>, i: nat, step: Step)
    requires Behind(cands, pending, grants, rejected) && i in pending && i < |cands|
    ensures Behind(cands, Remove(pending, i), GrantsAfter(step, i, grants), RejectedAfter(step, cands[i], i, rejected))
  {
    RemoveInRange(pending, i, |cands|);
  }

  /** One candidate. */
  method LaunchOne(state: PlanState, free: seq<nat>, ids: set<nat>) returns (step: Step)
    modifies state
    ensures step == StepOf(Cand(state.plan, old(state.launched), old(state.gpus)), free, ids)
    ensures Slot(state.launched, state.gpus)
            == if step.Run? then Slot(true, step.gpus) else Slot(old(state.launched), old(state.gpus))
  {
    if state.plan.model in ids {
      return Skip;
    }
    var n := state.plan.Size();
    if n > |free| {
      return TooLarge;
    }
    if state.launched {
      return Run(state.gpus, Without(free, state.gpus));
    }
    state.launched := true;
    state.gpus := free[..n];
    return Run(state.gpus, free[n..]);
  }

  method LaunchAt(states: seq<PlanState>, i: nat, free: seq<nat>, ids: set<nat>) returns (step: Step)
    requires Different(states) && i < |states|
    modifies states[i]
    ensures step == StepOf(CandsOf(states, old(SlotsOf(states)))[i], free, ids)
    ensures SlotsOf(states)
            == old(SlotsOf(states))[i := if step.Run? then Slot(true, step.gpus) else old(SlotsOf(states))[i]]
  {
    step := LaunchOne(states[i], free, ids);
  }

  lemma {:induction false} ListsStep(
      states: seq<PlanState>, cands: seq<Cand>, grants: seq<Grant>, rejected: seq<nat>, i: nat, step: Step)
    requires |cands| == |states| && i < |states| && InRange(rejected, |states|)
    requires forall k :: 0 <= k < |grants| ==> grants[k].cand < |states|
    ensures forall k :: 0 <= k < |GrantsAfter(step, i, grants)| ==> GrantsAfter(step, i, grants)[k].cand < |states|
    ensures InRange(RejectedAfter(step, cands[i], i, rejected), |states|)
    ensures Chosen(states, GrantsAfter(step, i, grants))
            == Chosen(states, grants) + (if step.Run? then [states[i]] else [])
    ensures Gather(states, RejectedAfter(step, cands[i], i, rejected))
            == Gather(states, rejected) + (if step.TooLarge? && !cands[i].launched then [states[i]] else [])
  {
  }

  lemma {:induction false} AfterStep(slots: seq<Slot>, grants: seq<Grant>, i: nat, step: Step)
    requires (forall k :: 0 <= k < |grants| ==> grants[k].cand < |slots| && grants[k].cand != i) && i < |slots|
    ensures forall k :: 0 <= k < |GrantsAfter(step, i, grants)| ==> GrantsAfter(step, i, grants)[k].cand < |slots|
    ensures After(slots, grants)[i] == slots[i]
    ensures After(slots, GrantsAfter(step, i, grants))
            == After(slots, grants)[i := if step.Run? then Slot(true, step.gpus) else slots[i]]
  {
    AfterElse(slots, grants, i);
    if step.Run? {
      assert (grants + [Grant(i, step.gpus)])[..|grants|] == grants;
    }
  }

  /** Launch or keep the candidates that fit, one after the other. Fails (there is no first element
      to take) exactly when the specification finds no root. */
  method TryToLoad(states: seq<PlanState>, available: seq<nat>, ids: set<nat>, largestFirst: bool)
    returns (ok: bool, chosen: seq<PlanState>, turnedAway: seq<PlanState>, free: seq<nat>, ghost l: Loaded)
    requires Different(states)
    modifies states
    ensures l == Load(CandsOf(states, old(SlotsOf(states))), UpTo(|states|), available, ids, largestFirst)
    ensures ok <==> l.Loaded?
    ensures ok ==> (forall k :: 0 <= k < |l.grants| ==> l.grants[k].cand < |states|) && InRange(l.rejected, |states|)
    ensures ok ==> chosen == Chosen(states, l.grants) && turnedAway == Gather(states, l.rejected) && free == l.rest
    ensures ok ==> SlotsOf(states) == After(old(SlotsOf(states)), l.grants)
  {
    ghost var slots := SlotsOf(states);
    var cands := CandsOf(states, SlotsOf(states));
    var pending, ids' := UpTo(|states|), ids;
    ghost var grants: seq<Grant>, rejected: seq<nat> := [], [];
    l := Load(cands, pending, available, ids, largestFirst);
    chosen, turnedAway, free, ok := [], [], available, true;
    DecideIsLoad(cands, pending, available, ids, largestFirst, [], []);
    while pending != []
      invariant Behind(cands, pending, grants, rejected)
      invariant Decide(cands, pending, free, ids', largestFirst, grants, rejected) == AsDecision(l, [], [])
      invariant chosen == Chosen(states, grants) && turnedAway == Gather(states, rejected)
      invariant SlotsOf(states) == After(slots, grants)
      decreases |pending|
    {
      var choice := Choice(cands, pending, largestFirst);
      if choice == [] {
        ok := false;
        return;
      }
      var i := choice[0];
      assert i in choice;
      AfterElse(slots, grants, i);
      var step := LaunchAt(states, i, free, ids');
      AfterStep(slots, grants, i, step);
      ListsStep(states, cands, grants, rejected, i, step);
      BehindStep(cands, pending, grants, rejected, i, step);
      pending, free, ids' := Remove(pending, i), FreeAfter(step, free), IdsAfter(step, cands[i], ids');
      grants, rejected := GrantsAfter(step, i, grants), RejectedAfter(step, cands[i], i, rejected);
      chosen := chosen + (if step.Run? then [states[i]] else []);
      turnedAway := turnedAway + (if step.TooLarge? && !cands[i].launched then [states[i]] else []);
    }
    assert AsDecision(l, [], []) == Decided(grants, rejected, free);
    Shift(l.grants, [], []);
    Shift(l.rejected, [], []);
  }
}
