/** Which plans run while the system moves from stage to stage: the rules, on lists of plan states. */
module StageInvariant {
  import opened PlanStates

  type Groups = seq<seq<PlanState>>

  ghost predicate UsedLater(groups: Groups, s: nat, model: nat) {
    exists u: nat, p: PlanState :: s < u < |groups| && p in groups[u] && p.plan.model == model
  }

  ghost predicate UsedIn(groups: Groups, s: nat, key: PlanKey)
    requires s < |groups|
  {
    exists p :: p in groups[s] && KeyOf(p.plan) == key
  }

  /** No model twice. */
  ghost predicate OnePerModel(list: seq<PlanState>) {
    forall j, k :: 0 <= j < k < |list| ==> list[j].plan.model != list[k].plan.model
  }

  /** The plan states of all stages, with the flags of the preparation: `last` exactly when no later
      stage uses the model, `needPrepare` exactly when the stage before does not have the same plan. */
  ghost predicate GroupsOk(groups: Groups) {
    && (forall s: nat :: s < |groups| ==> OnePerModel(groups[s]))
    && (forall s: nat, p :: s < |groups| && p in groups[s] ==>
          && p.stage == s
          && (p.last <==> !UsedLater(groups, s, p.plan.model))
          && (p.needPrepare <==> s > 0 && !UsedIn(groups, s - 1, KeyOf(p.plan))))
  }

  ghost predicate Done(p: PlanState, fin: set<nat>) {
    p.plan.model in fin
  }

  ghost predicate Stage(groups: Groups, p: PlanState) {
    p.stage < |groups| && p in groups[p.stage]
  }

  lemma {:induction false} SamePlan(list: seq<PlanState>, p: PlanState, q: PlanState)
    requires OnePerModel(list) && p in list && q in list && p.plan.model == q.plan.model
    ensures p == q
  {
    var j :| 0 <= j < |list| && list[j] == p;
    var k :| 0 <= k < |list| && list[k] == q;
    assert j == k;
  }

  // ----- selecting from a list

  function Select(list: seq<PlanState>, keep: PlanState -> bool): (r: seq<PlanState>)
    ensures forall p :: p in r ==> p in list && keep(p)
    ensures forall p :: p in list && keep(p) ==> p in r
    decreases |list|
  {
    if list == [] then []
    else
      var last := list[|list| - 1];
      Select(list[..|list| - 1], keep) + (if keep(last) then [last] else [])
  }

  lemma {:induction false} SelectOnePerModel(list: seq<PlanState>, keep: PlanState -> bool)
    requires OnePerModel(list)
    ensures OnePerModel(Select(list, keep))
    decreases |list|
  {
    if list != [] {
      var front, last := list[..|list| - 1], list[|list| - 1];
      SelectOnePerModel(front, keep);
      var f := Select(front, keep);
      forall j | 0 <= j < |f| ensures f[j].plan.model != last.plan.model {
        assert f[j] in f;
        var i :| 0 <= i < |front| && front[i] == f[j];
        assert list[i].plan.model != list[|list| - 1].plan.model;
      }
    }
  }

  lemma {:induction false} ConcatOnePerModel(a: seq<PlanState>, b: seq<PlanState>)
    requires OnePerModel(a) && OnePerModel(b)
    requires forall p, q :: p in a && q in b ==> p.plan.model != q.plan.model
    ensures OnePerModel(a + b)
  {
    forall j, k | 0 <= j < k < |a + b| ensures (a + b)[j].plan.model != (a + b)[k].plan.model {
      if j < |a| <= k {
        assert a[j] in a && b[k - |a|] in b;
      }
    }
  }

  /** Running plans that go on: those of the target stage, and older ones that are their model's last. */
  function Going(launched: seq<PlanState>, target: nat, fin: set<nat>): seq<PlanState> {
    Select(launched, (p: PlanState) => p.plan.model !in fin && (p.stage >= target || p.last))
  }

  /** Running plans that a later stage replaces: they go on only if there is room. */
  function Spare(launched: seq<PlanState>, target: nat, fin: set<nat>): seq<PlanState> {
    Select(launched, (p: PlanState) => p.plan.model !in fin && p.stage < target && !p.last)
  }

  /** Candidates that continue the same plan of the stage before. */
  function Continuing(cands: seq<PlanState>, fin: set<nat>): seq<PlanState> {
    Select(cands, (p: PlanState) => p.plan.model !in fin && !p.needPrepare)
  }

  function Waiting(cands: seq<PlanState>, fin: set<nat>): seq<PlanState> {
    Select(cands, (p: PlanState) => p.plan.model !in fin && p.needPrepare)
  }

  // ----- the invariant

  /** All plans of the stage before the target run, or their models have finished. */
  ghost predicate StageRuns(groups: Groups, running: seq<PlanState>, s: nat, fin: set<nat>) {
    s < |groups| ==> forall p :: p in groups[s] ==> p in running || Done(p, fin)
  }

  ghost predicate StillNeeded(running: seq<PlanState>, target: nat, on: set<PlanState>, fin: set<nat>) {
    forall p :: p in on && (p.last || p.stage >= target) && !Done(p, fin) ==> p in running
  }

  /** Between rounds: `on` are the plans ever launched. One plan per model runs; every plan of the
      stages before the target has been launched or its model has finished; a plan of the target stage
      is a candidate, or has been launched and still runs, or its model has finished; later plans have
      not been touched. A launched plan of the target stage, or one that is its model's last, keeps
      running until the model finishes. The candidates are the whole stage while the stage before runs, and afterwards
      only plans whose environment has to be prepared. */
  ghost predicate StageInv(
      groups: Groups, running: seq<PlanState>, cands: seq<PlanState>, target: nat, on: set<PlanState>, fin: set<nat>)
  {
    && GroupsOk(groups) && target >= 1 && OnePerModel(running)
    && (forall p :: p in running ==> Stage(groups, p) && p.stage <= target && p in on)
    && (forall s: nat, p :: s < target && s < |groups| && p in groups[s] ==> p in on || Done(p, fin))
    && (forall s: nat, p :: target < s < |groups| && p in groups[s] ==> p !in on)
    && StillNeeded(running, target, on, fin)
    && (target >= |groups| ==> cands == [])
    && (target < |groups| ==>
          && OnePerModel(cands) && (forall p :: p in cands ==> p in groups[target] && p !in on)
          && (forall p :: p in groups[target] ==> p in cands || p in running || Done(p, fin))
          && ((cands == groups[target] && StageRuns(groups, running, target - 1, fin))
              || forall p :: p in cands ==> p.needPrepare))
  }

  /** A plan that continues finds its GPUs: the same plan of the stage before is running. */
  lemma {:induction false} ContinuesRunning(
      groups: Groups, running: seq<PlanState>, cands: seq<PlanState>, target: nat, on: set<PlanState>, fin: set<nat>,
      p: PlanState)
    returns (q: PlanState)
    requires StageInv(groups, running, cands, target, on, fin) && p in Continuing(cands, fin)
    ensures q in running && KeyOf(q.plan) == KeyOf(p.plan)
  {
    assert target < |groups| && p in groups[target];
    assert UsedIn(groups, target - 1, KeyOf(p.plan));
    q :| q in groups[target - 1] && KeyOf(q.plan) == KeyOf(p.plan);
  }

  /** What goes on and what continues: still one plan per model, and no candidate that waits is of a
      model among them. */
  lemma {:induction false} FirstPhase(
      groups: Groups, running: seq<PlanState>, cands: seq<PlanState>, target: nat, on: set<PlanState>, was: set<nat>,
      fin: set<nat>)
    requires StageInv(groups, running, cands, target, on, fin)
    ensures OnePerModel(Going(running, target, was) + Continuing(cands, fin)) && OnePerModel(Waiting(cands, fin))
    ensures forall p, q :: p in Going(running, target, was) + Continuing(cands, fin) && q in Waiting(cands, fin)
              ==> p.plan.model != q.plan.model
  {
    var going, cont, wait := Going(running, target, was), Continuing(cands, fin), Waiting(cands, fin);
    SelectOnePerModel(running, (p: PlanState) => p.plan.model !in was && (p.stage >= target || p.last));
    SelectOnePerModel(cands, (p: PlanState) => p.plan.model !in fin && !p.needPrepare);
    SelectOnePerModel(cands, (p: PlanState) => p.plan.model !in fin && p.needPrepare);
    forall p, q | p in going && q in cands ensures p.plan.model != q.plan.model {
      GoingNotCandidate(groups, running, cands, target, on, was, fin, p, q);
    }
    ConcatOnePerModel(going, cont);
    forall p, q | p in cont && q in wait ensures p.plan.model != q.plan.model {
      if p.plan.model == q.plan.model {
        SamePlan(cands, p, q);
      }
    }
  }

  lemma {:induction false} GoingNotCandidate(
      groups: Groups, running: seq<PlanState>, cands: seq<PlanState>, target: nat, on: set<PlanState>, was: set<nat>,
      fin: set<nat>,
      p: PlanState, q: PlanState)
    requires StageInv(groups, running, cands, target, on, fin) && p in Going(running, target, was) && q in cands
    ensures p.plan.model != q.plan.model
  {
    assert target < |groups| && q in groups[target] && Stage(groups, p);
    if p.plan.model == q.plan.model {
      if p.stage == target {
        SamePlan(groups[target], p, q);
      } else {
        assert UsedLater(groups, p.stage, p.plan.model);
      }
      assert false;
    }
  }

  // ----- one round

  /** What a round makes of the lists, when the running plans are looked at while the models of `was`
      have finished and the candidates while those of `fin` have: everything that goes on or continues
      runs, every candidate that waits runs or is turned away, and nothing else runs but plans that were running. */
  ghost predicate RoundMade(
      running: seq<PlanState>, cands: seq<PlanState>, target: nat, on: set<PlanState>, was: set<nat>, fin: set<nat>,
      running': seq<PlanState>, turnedAway: seq<PlanState>, on': set<PlanState>)
  {
    && OnePerModel(running') && OnePerModel(turnedAway)
    && (forall p :: p in Going(running, target, was) ==> p in running')
    && (forall p :: p in Continuing(cands, fin) ==> p in running')
    && (forall p :: p in running' ==> p in running || p in Continuing(cands, fin) || p in Waiting(cands, fin))
    && (forall p :: p in Waiting(cands, fin) ==> p in running' || p in turnedAway)
    && (forall p :: p in turnedAway ==> p in Waiting(cands, fin) && p !in running')
    && (forall p :: p in on' ==> p in on || p in running' || (p in cands && Done(p, fin)))
    && on <= on' && (forall p :: p in running' ==> p in on') && (forall p :: p in cands && Done(p, fin) ==> p in on')
  }

  function NextCands(groups: Groups, target: nat): seq<PlanState> {
    if target + 1 < |groups| then groups[target + 1] else []
  }

  /** While candidates are turned away the target stays. */
  lemma {:induction false} RoundStays(
      groups: Groups, running: seq<PlanState>, cands: seq<PlanState>, target: nat, on: set<PlanState>, was: set<nat>,
      fin: set<nat>,
      running': seq<PlanState>, turnedAway: seq<PlanState>, on': set<PlanState>)
    requires StageInv(groups, running, cands, target, on, fin)
    requires was <= fin && RoundMade(running, cands, target, on, was, fin, running', turnedAway, on')
    requires turnedAway != []
    ensures StageInv(groups, running', turnedAway, target, on', fin)
  {
    assert turnedAway[0] in turnedAway;
    assert target < |groups|;
    NeededKept(running, cands, target, on, was, fin, running', turnedAway, on');
    forall p | p in groups[target] ensures p in turnedAway || p in running' || Done(p, fin) {
      TargetPlan(groups, running, cands, target, on, was, fin, running', turnedAway, on', p);
    }
  }

  /** A plan of the target stage after the round. */
  lemma {:induction false} TargetPlan(
      groups: Groups, running: seq<PlanState>, cands: seq<PlanState>, target: nat, on: set<PlanState>, was: set<nat>,
      fin: set<nat>,
      running': seq<PlanState>, turnedAway: seq<PlanState>, on': set<PlanState>, p: PlanState)
    requires StageInv(groups, running, cands, target, on, fin) && target < |groups| && p in groups[target]
    requires was <= fin && RoundMade(running, cands, target, on, was, fin, running', turnedAway, on')
    ensures p in turnedAway || p in running' || Done(p, fin)
    ensures p in turnedAway || p in on' || Done(p, fin)
  {
    if !Done(p, fin) {
      if p in cands {
        assert p in Continuing(cands, fin) || p in Waiting(cands, fin);
      } else {
        assert p in Going(running, target, was);
      }
    }
  }

  /** Who has been launched and is needed goes on. */
  lemma {:induction false} NeededKept(
      running: seq<PlanState>, cands: seq<PlanState>, target: nat, on: set<PlanState>, was: set<nat>, fin: set<nat>,
      running': seq<PlanState>, turnedAway: seq<PlanState>, on': set<PlanState>)
    requires was <= fin && StillNeeded(running, target, on, fin)
    requires RoundMade(running, cands, target, on, was, fin, running', turnedAway, on')
    ensures StillNeeded(running', target, on', fin)
  {
    forall p | p in on' && (p.last || p.stage >= target) && !Done(p, fin) ensures p in running' {
      if p in running {
        assert p in Going(running, target, was);
      }
    }
  }

  lemma {:induction false} StillRunning(
      groups: Groups, running: seq<PlanState>, cands: seq<PlanState>, target: nat, on: set<PlanState>, was: set<nat>,
      fin: set<nat>,
      running': seq<PlanState>, turnedAway: seq<PlanState>, on': set<PlanState>)
    requires StageInv(groups, running, cands, target, on, fin)
    requires RoundMade(running, cands, target, on, was, fin, running', turnedAway, on')
    ensures forall p :: p in running' ==> Stage(groups, p) && p.stage <= target && p in on'
  {
    forall p | p in running' ensures Stage(groups, p) && p.stage <= target {
      if p !in running {
        assert p in cands;
      }
    }
  }

  lemma {:induction false} LaterUntouched(
      groups: Groups, running: seq<PlanState>, cands: seq<PlanState>, target: nat, on: set<PlanState>, was: set<nat>,
      fin: set<nat>,
      running': seq<PlanState>, turnedAway: seq<PlanState>, on': set<PlanState>, s: nat, p: PlanState)
    requires StageInv(groups, running, cands, target, on, fin)
    requires RoundMade(running, cands, target, on, was, fin, running', turnedAway, on')
    requires target < s < |groups| && p in groups[s]
    ensures p !in on' && p !in running'
  {
    StillRunning(groups, running, cands, target, on, was, fin, running', turnedAway, on');
    StageOf(groups, running', cands, target, s, p);
  }

  /** When nobody is turned away the next stage becomes the target: all of its predecessors run. */
  lemma {:induction false} RoundAdvances(
      groups: Groups, running: seq<PlanState>, cands: seq<PlanState>, target: nat, on: set<PlanState>, was: set<nat>,
      fin: set<nat>,
      running': seq<PlanState>, on': set<PlanState>)
    requires StageInv(groups, running, cands, target, on, fin)
    requires was <= fin && RoundMade(running, cands, target, on, was, fin, running', [], on')
    ensures StageInv(groups, running', NextCands(groups, target), target + 1, on', fin)
  {
    StillRunning(groups, running, cands, target, on, was, fin, running', [], on');
    forall s: nat, p | s < target + 1 && s < |groups| && p in groups[s] ensures p in on' || Done(p, fin) {
      if s == target {
        TargetPlan(groups, running, cands, target, on, was, fin, running', [], on', p);
      }
    }
    forall s: nat, p | target < s < |groups| && p in groups[s] ensures p !in on' && p !in running' {
      LaterUntouched(groups, running, cands, target, on, was, fin, running', [], on', s, p);
    }
    assert StageRuns(groups, running', target, fin) by {
      forall p | target < |groups| && p in groups[target] ensures p in running' || Done(p, fin) {
        TargetPlan(groups, running, cands, target, on, was, fin, running', [], on', p);
      }
    }
    NeededKept(running, cands, target, on, was, fin, running', [], on');
    Advanced(groups, running', target, on', fin);
  }

  lemma {:induction false} Advanced(
      groups: Groups, running: seq<PlanState>, target: nat, on: set<PlanState>, fin: set<nat>)
    requires GroupsOk(groups) && target >= 1 && OnePerModel(running) && StageRuns(groups, running, target, fin)
    requires forall p :: p in running ==> Stage(groups, p) && p.stage <= target && p in on
    requires forall s: nat, p :: s < target + 1 && s < |groups| && p in groups[s] ==> p in on || Done(p, fin)
    requires forall s: nat, p :: target < s < |groups| && p in groups[s] ==> p !in on
    requires StillNeeded(running, target, on, fin)
    ensures StageInv(groups, running, NextCands(groups, target), target + 1, on, fin)
  {
  }

  lemma {:induction false} StageOf(
      groups: Groups, running: seq<PlanState>, cands: seq<PlanState>, target: nat, s: nat, p: PlanState)
    requires GroupsOk(groups) && target < s < |groups| && p in groups[s]
    requires forall q :: q in running ==> q.stage <= target
    requires target < |groups| ==> forall q :: q in cands ==> q in groups[target]
    ensures p !in running && p !in cands
  {
    assert p.stage == s;
  }

  /** Finished models stay finished: nothing else is asked of the time between rounds. */
  lemma {:induction false} MoreFinished(
      groups: Groups, running: seq<PlanState>, cands: seq<PlanState>, target: nat, on: set<PlanState>, fin: set<nat>,
      fin': set<nat>)
    requires StageInv(groups, running, cands, target, on, fin) && fin <= fin'
    ensures StageInv(groups, running, cands, target, on, fin')
  {
  }

  /** The first round: the first stage runs, the second one is the target. */
  lemma {:induction false} StartsOk(groups: Groups, running: seq<PlanState>, on: set<PlanState>)
    requires GroupsOk(groups) && |groups| >= 1 && OnePerModel(running)
    requires forall p :: p in running ==> p in groups[0]
    requires forall p :: p in groups[0] ==> p in running
    requires forall p :: p in on ==> p in running
    requires forall p :: p in running ==> p in on
    ensures StageInv(groups, running, NextCands(groups, 0), 1, on, {})
  {
    assert forall p :: p in running ==> Stage(groups, p) && p.stage == 0;
  }
}
