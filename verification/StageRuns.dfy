/** Moving through the stages over a whole run, whenever models finish. */
module StageRuns {
  import opened Lists
  import opened Acyclic
  import opened FirstAssignment
  import opened PlanStates
  import opened StageInvariant
  import opened StagePicks
  import opened StageAdvance

  lemma {:induction false} FirstStageOn(groups: Groups, running: seq<PlanState>)
    requires GroupsOk(groups) && |groups| >= 1
    requires (forall p :: p in running ==> p in groups[0]) && (forall p :: p in groups[0] ==> p in running)
    requires forall p :: p in AllPlans(groups) ==> (p.launched <==> p in groups[0])
    requires OnePerModel(running)
    ensures StageInv(groups, running, NextCands(groups, 0), 1, On(AllPlans(groups)), {})
  {
    StartsOk(groups, running, On(AllPlans(groups)));
  }

  /** The plans of the first stage, in the order in which they get their GPUs. */
  function FirstRunning(group: seq<PlanState>, unit: nat): seq<PlanState>
    requires unit >= 1
  {
    StartInRange(ItemsOf(group, map[]), unit);
    Gather(group, StartOrder(ItemsOf(group, map[]), unit))
  }

  lemma {:induction false} FirstRunningFacts(group: seq<PlanState>, unit: nat)
    requires unit >= 1 && OnePerModel(group)
    ensures OnePerModel(FirstRunning(group, unit))
    ensures forall p :: p in FirstRunning(group, unit) ==> p in group
    ensures forall p :: p in group ==> p in FirstRunning(group, unit)
  {
    StartInRange(ItemsOf(group, map[]), unit);
    var o := StartOrder(ItemsOf(group, map[]), unit);
    forall j, k | 0 <= j < k < |o| ensures group[o[j]].plan.model != group[o[k]].plan.model {
      OtherModel(group, o[j], o[k]);
    }
    forall p | p in group ensures p in Gather(group, o) {
      var i: nat :| i < |group| && group[i] == p;
      assert i in o;
      var k :| 0 <= k < |o| && o[k] == i;
      assert Gather(group, o)[k] == p;
    }
  }

  /** Launch the first stage. */
  method StartStages(groups: Groups, tot: nat, unit: nat) returns (running: seq<PlanState>)
    requires GroupsOk(groups) && |groups| >= 1 && unit >= 1 && On(AllPlans(groups)) == {}
    modifies groups[0]
    ensures StageInv(groups, running, NextCands(groups, 0), 1, On(AllPlans(groups)), {})
    ensures running == FirstRunning(groups[0], unit)
    ensures GpusOf(groups[0]) == FirstPlacing(ItemsOf(groups[0], map[]), tot, unit)
  {
    OneIsDifferent(groups[0]);
    FirstRunningFacts(groups[0], unit);
    running := FirstRunning(groups[0], unit);
    AssignFirst(groups[0], tot, unit);
    FirstStageOn(groups, running);
  }

  /** Launch the first stage, then so many rounds, whenever models finish: `last` is when the last
      round first looked. */
  method RunStages(
      groups: Groups, tot: nat, unit: nat, seen: nat -> set<nat>, rounds: nat, keepOrder: bool, ghost system: Graph)
    returns (running: seq<PlanState>, cands: seq<PlanState>, target: nat, now: nat, ghost last: nat,
             ghost turns: seq<Turn>)
    requires GroupsOk(groups) && |groups| >= 1 && SystemOk(groups, system) && unit >= 1 && Growing(seen)
    requires On(AllPlans(groups)) == {}
    modifies AllPlans(groups)
    ensures StageInv(groups, running, cands, target, On(AllPlans(groups)), seen(now))
    ensures rounds > 0 ==> last < now && forall p :: p in running ==> !Done(p, seen(last))
    ensures RunSoFar(groups, FirstRunning(groups[0], unit), turns, tot, seen, keepOrder)
    ensures |turns| == rounds + 1 && AtTurn(turns[rounds], running, cands, target, now)
  {
    running := StartStages(groups, tot, unit);
    cands, target, now, last := NextCands(groups, 0), 1, 0, 0;
    MoreFinished(groups, running, cands, target, On(AllPlans(groups)), {}, seen(0));
    turns := [Turn(running, cands, target, now, [], map[])];
    for k := 0 to rounds
      invariant StageInv(groups, running, cands, target, On(AllPlans(groups)), seen(now))
      invariant k > 0 ==> last < now && forall p :: p in running ==> !Done(p, seen(last))
      invariant RunSoFar(groups, FirstRunning(groups[0], unit), turns, tot, seen, keepOrder)
      invariant |turns| == k + 1 && AtTurn(turns[k], running, cands, target, now)
    {
      last := now;
      ghost var picks;
      running, cands, target, now, picks :=
        NextRound(groups, running, cands, target, tot, seen, now, keepOrder, system);
      ghost var turn := Turn(running, cands, target, now, picks, GpusHeld(AllPlans(groups)));
      RunMore(groups, FirstRunning(groups[0], unit), turns, turn, tot, seen, keepOrder);
      turns := turns + [turn];
    }
  }
}
