/** Preparing the plan states of all stages. */
module StagePreparation {
  import opened Placement
  import opened PlanStates
  import opened StageInvariant

  predicate ModelIn(plans: seq<Plan>, model: nat) {
    exists p :: p in plans && p.model == model
  }

  predicate KeyIn(plans: seq<Plan>, key: PlanKey) {
    exists p :: p in plans && KeyOf(p) == key
  }

  /** Plan k of stage s is the last of its model: neither earlier in the stage nor in a later stage. */
  ghost predicate LastUse(plans: seq<seq<Plan>>, s: nat, k: nat)
    requires s < |plans| && k < |plans[s]|
  {
    && !ModelIn(plans[s][..k], plans[s][k].model)
    && forall u :: s < u < |plans| ==> !ModelIn(plans[u], plans[s][k].model)
  }

  /** The state made for plan k of stage s. */
  ghost predicate Prepared(st: PlanState, plans: seq<seq<Plan>>, s: nat, k: nat)
    requires s < |plans| && k < |plans[s]|
  {
    && st.plan == plans[s][k] && st.stage == s
    && (st.last <==> LastUse(plans, s, k))
    && (st.needPrepare <==> s > 0 && !KeyIn(plans[s - 1], KeyOf(plans[s][k])))
  }

  ghost predicate PreparedGroup(group: seq<PlanState>, plans: seq<seq<Plan>>, s: nat)
    requires s < |plans|
  {
    |group| == |plans[s]| && forall k :: 0 <= k < |group| ==> Prepared(group[k], plans, s, k)
  }

  ghost predicate Checked(checked: set<nat>, plans: seq<seq<Plan>>, s: nat, k: nat)
    requires s < |plans| && k <= |plans[s]|
  {
    forall m :: m in checked <==> ModelIn(plans[s][..k], m) || exists u :: s < u < |plans| && ModelIn(plans[u], m)
  }

  lemma {:induction false} CheckedStep(checked: set<nat>, plans: seq<seq<Plan>>, s: nat, k: nat)
    requires s < |plans| && k < |plans[s]| && Checked(checked, plans, s, k)
    ensures Checked(checked + {plans[s][k].model}, plans, s, k + 1)
    ensures plans[s][k].model !in checked <==> LastUse(plans, s, k)
  {
    var a, b := plans[s][..k], plans[s][..k + 1];
    assert b == a + [plans[s][k]];
    forall m ensures ModelIn(b, m) <==> ModelIn(a, m) || m == plans[s][k].model {
      if ModelIn(a, m) {
        var p :| p in a && p.model == m;
        assert p in b;
      }
      assert plans[s][k] in b;
    }
  }

  lemma {:induction false} CheckedDown(checked: set<nat>, plans: seq<seq<Plan>>, s: nat)
    requires s + 1 < |plans| && Checked(checked, plans, s + 1, |plans[s + 1]|)
    ensures Checked(checked, plans, s, 0)
  {
    assert plans[s + 1][..|plans[s + 1]|] == plans[s + 1];
    forall m ensures m in checked <==> exists u :: s < u < |plans| && ModelIn(plans[u], m) {
      if u :| s < u < |plans| && ModelIn(plans[u], m) {
        assert u == s + 1 || s + 1 < u;
      }
    }
  }

  /** The states of one stage. */
  method PrepareStage(
      plans: seq<seq<Plan>>, s: nat, checked: set<nat>) returns (group: seq<PlanState>, checked': set<nat>)
    requires s < |plans| && Checked(checked, plans, s, 0)
    ensures Checked(checked', plans, s, |plans[s]|)
    ensures PreparedGroup(group, plans, s)
    ensures forall k :: 0 <= k < |group| ==> fresh(group[k]) && !group[k].launched && group[k].gpus == []
  {
    group, checked' := [], checked;
    for k := 0 to |plans[s]|
      invariant Checked(checked', plans, s, k)
      invariant |group| == k && forall j :: 0 <= j < k ==> Prepared(group[j], plans, s, j)
      invariant forall j :: 0 <= j < k ==> fresh(group[j]) && !group[j].launched && group[j].gpus == []
    {
      var p := plans[s][k];
      var need := s > 0 && !KeyIn(plans[s - 1], KeyOf(p));
      var last := p.model !in checked';
      CheckedStep(checked', plans, s, k);
      if last {
        checked' := checked' + {p.model};
      } else {
        assert checked' + {p.model} == checked';
      }
      var st := new PlanState(p, s, last, need);
      group := group + [st];
    }
  }

  /** One state per plan, last stage first, remembering the models seen. */
  method PrepareStates(plans: seq<seq<Plan>>) returns (groups: Groups)
    ensures |groups| == |plans| && forall s :: 0 <= s < |plans| ==> PreparedGroup(groups[s], plans, s)
    ensures forall s, k :: 0 <= s < |groups| && 0 <= k < |groups[s]| ==>
              fresh(groups[s][k]) && !groups[s][k].launched && groups[s][k].gpus == []
  {
    groups := [];
    var checked: set<nat> := {};
    for s := |plans| downto 0
      invariant |groups| == |plans| - s
      invariant s < |plans| ==> Checked(checked, plans, s, |plans[s]|)
      invariant s == |plans| ==> checked == {}
      invariant forall i :: 0 <= i < |groups| ==> PreparedGroup(groups[i], plans, s + i)
      invariant forall u, k :: 0 <= u < |groups| && 0 <= k < |groups[u]| ==>
                  fresh(groups[u][k]) && !groups[u][k].launched && groups[u][k].gpus == []
    {
      if s + 1 < |plans| {
        CheckedDown(checked, plans, s);
      }
      var group;
      group, checked := PrepareStage(plans, s, checked);
      groups := [group] + groups;
    }
  }

  /** With at most one plan per model in each stage, the prepared states obey the rules. */
  lemma {:induction false} PreparedOk(groups: Groups, plans: seq<seq<Plan>>)
    requires |groups| == |plans| && forall s :: 0 <= s < |plans| ==> PreparedGroup(groups[s], plans, s)
    requires forall s, j, k :: 0 <= s < |plans| && 0 <= j < k < |plans[s]| ==> plans[s][j].model != plans[s][k].model
    ensures GroupsOk(groups)
  {
    forall s: nat, p | s < |groups| && p in groups[s]
      ensures p.stage == s && (p.last <==> !UsedLater(groups, s, p.plan.model))
      ensures p.needPrepare <==> s > 0 && !UsedIn(groups, s - 1, KeyOf(p.plan))
    {
      var k: nat :| k < |groups[s]| && groups[s][k] == p;
      PreparedFlags(groups, plans, s, k);
    }
  }

  lemma {:induction false} PreparedFlags(groups: Groups, plans: seq<seq<Plan>>, s: nat, k: nat)
    requires |groups| == |plans| && forall s :: 0 <= s < |plans| ==> PreparedGroup(groups[s], plans, s)
    requires forall s, j, k :: 0 <= s < |plans| && 0 <= j < k < |plans[s]| ==> plans[s][j].model != plans[s][k].model
    requires s < |plans| && k < |plans[s]|
    ensures k < |groups[s]|
    ensures var p := groups[s][k];
            && p.stage == s && (p.last <==> !UsedLater(groups, s, p.plan.model))
            && (p.needPrepare <==> s > 0 && !UsedIn(groups, s - 1, KeyOf(p.plan)))
  {
    assert PreparedGroup(groups[s], plans, s);
    var p := groups[s][k];
    assert Prepared(p, plans, s, k);
    forall u: nat, m | u < |plans| ensures ModelIn(plans[u], m) <==> exists q :: q in groups[u] && q.plan.model == m {
      StageModels(groups[u], plans[u], m);
    }
    if s > 0 {
      StageKeys(groups[s - 1], plans[s - 1], KeyOf(p.plan));
    }
  }

  lemma {:induction false} StageModels(group: seq<PlanState>, plans: seq<Plan>, m: nat)
    requires |group| == |plans| && forall k :: 0 <= k < |plans| ==> group[k].plan == plans[k]
    ensures ModelIn(plans, m) <==> exists q :: q in group && q.plan.model == m
  {
    if ModelIn(plans, m) {
      var p :| p in plans && p.model == m;
      var k :| 0 <= k < |plans| && plans[k] == p;
      assert group[k] in group;
    }
    if q :| q in group && q.plan.model == m {
      var k :| 0 <= k < |group| && group[k] == q;
      assert plans[k] in plans;
    }
  }

  lemma {:induction false} StageKeys(group: seq<PlanState>, plans: seq<Plan>, key: PlanKey)
    requires |group| == |plans| && forall k :: 0 <= k < |plans| ==> group[k].plan == plans[k]
    ensures KeyIn(plans, key) <==> exists q :: q in group && KeyOf(q.plan) == key
  {
    if KeyIn(plans, key) {
      var p :| p in plans && KeyOf(p) == key;
      var k :| 0 <= k < |plans| && plans[k] == p;
      assert group[k] in group;
    }
    if q :| q in group && KeyOf(q.plan) == key {
      var k :| 0 <= k < |group| && group[k] == q;
      assert plans[k] in plans;
    }
  }
}
