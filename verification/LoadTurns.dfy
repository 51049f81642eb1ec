/** What each candidate finds when the loading loop comes to it: told from the outcome alone. */
module LoadTurns {
  import opened Lists
  import opened GpuUnits
  import opened Loading

  /** The grants to the given candidates. */
  function GrantsTo(grants: seq<Grant>, seen: seq<nat>): (r: seq<Grant>)
    ensures forall g :: g in r <==> g in grants && g.cand in seen
  {
    if grants == [] then []
    else (if grants[0].cand in seen then [grants[0]] else []) + GrantsTo(grants[1..], seen)
  }

  /** A candidate that finds `free` and those models chosen is granted GPUs exactly if its model is
      not among them and it needs no more than there are: a running one its own, a new one the first
      ones. Otherwise, if its model is not among them and it is new, it is turned away. */
  ghost predicate TurnOf(c: Cand, i: nat, free: seq<nat>, taken: bool, l: Loaded)
    requires l.Loaded?
  {
    var fits := !taken && c.plan.Size() <= |free|;
    && (forall g :: g in l.grants && g.cand == i ==> fits)
    && (fits ==> forall g :: g in l.grants && g.cand == i <==> g == Grant(i, OwnOr(c, free)))
    && (i in l.rejected <==> !taken && c.plan.Size() > |free| && !c.launched)
  }

  function OwnOr(c: Cand, free: seq<nat>): seq<nat> {
    if !c.launched && c.plan.Size() <= |free| then free[..c.plan.Size()] else c.gpus
  }

  /** Candidate j of the order finds the available GPUs without those granted to the ones before it,
      and the models of those. */
  ghost predicate TurnExact(cands: seq<Cand>, available: seq<nat>, ids: set<nat>, l: Loaded, j: nat)
    requires l.Loaded? && j < |l.order| && l.order[j] < |cands|
  {
    var i, earlier := l.order[j], GrantsTo(l.grants, l.order[..j]);
    TurnOf(cands[i], i, Without(available, Granted(earlier)),
           cands[i].plan.model in ids || Taken(cands, earlier, i), l)
  }

  lemma {:induction false} NoneTo(grants: seq<Grant>)
    ensures GrantsTo(grants, []) == []
  {
    if grants != [] {
      NoneTo(grants[1..]);
    }
  }

  lemma {:induction false} GrantsToOthers(grants: seq<Grant>, i: nat, seen: seq<nat>)
    requires forall k :: 0 <= k < |grants| ==> grants[k].cand != i
    ensures GrantsTo(grants, [i] + seen) == GrantsTo(grants, seen)
  {
    if grants != [] {
      GrantsToOthers(grants[1..], i, seen);
    }
  }

  /** The first turn of the loop, and what is left to it. */
  ghost predicate OneTurn(
      cands: seq<Cand>, available: seq<nat>, ids: set<nat>, i: nat, step: Step, t: Loaded, l: Loaded)
  {
    && i < |cands| && step == StepOf(cands[i], available, ids) && t.Loaded? && l.Loaded?
    && l.order == [i] + t.order && l.grants == (if step.Run? then [Grant(i, step.gpus)] else []) + t.grants
    && l.rejected == (if step.TooLarge? && !cands[i].launched then [i] else []) + t.rejected
    && (forall k :: 0 <= k < |t.grants| ==> t.grants[k].cand != i) && i !in t.rejected
  }

  /** Candidate j of the order is one of the pending ones, and has its turn. */
  ghost predicate TurnAt(cands: seq<Cand>, pending: seq<nat>, available: seq<nat>, ids: set<nat>, l: Loaded, j: nat) {
    && l.Loaded? && j < |l.order| && l.order[j] in pending && l.order[j] < |cands|
    && TurnExact(cands, available, ids, l, j)
  }

  lemma {:induction false} FirstTurn(
      cands: seq<Cand>, pending: seq<nat>, available: seq<nat>, ids: set<nat>, i: nat, step: Step, t: Loaded, l: Loaded,
      j: nat)
    requires OneTurn(cands, available, ids, i, step, t, l) && j == 0 && i in pending
    ensures TurnAt(cands, pending, available, ids, l, j)
  {
    NoneTo(l.grants);
    WithoutNothing(available, []);
    assert l.order[..0] == [];
  }

  lemma {:induction false} LaterTurn(
      cands: seq<Cand>, available: seq<nat>, ids: set<nat>, i: nat, step: Step, t: Loaded, l: Loaded, j: nat)
    requires OneTurn(cands, available, ids, i, step, t, l) && Distinct(available)
    requires 1 <= j <= |t.order| && t.order[j - 1] != i && t.order[j - 1] < |cands|
    requires TurnExact(cands, FreeAfter(step, available), IdsAfter(step, cands[i], ids), t, j - 1)
    ensures TurnExact(cands, available, ids, l, j)
  {
    var n := t.order[j - 1];
    var late := GrantsTo(t.grants, t.order[..j - 1]);
    assert l.order[..j] == [i] + t.order[..j - 1];
    GrantsToOthers(t.grants, i, t.order[..j - 1]);
    StepExact(cands[i], available, ids);
    if step.Run? {
      assert l.grants[1..] == t.grants;
      assert GrantsTo(l.grants, l.order[..j]) == [Grant(i, step.gpus)] + late;
      EarlierTaken(cands, Grant(i, step.gpus), late, n);
      assert ([Grant(i, step.gpus)] + late)[1..] == late;
      WithoutTwice(available, step.gpus, Granted(late));
    } else {
      assert l.grants == t.grants;
    }
  }

  lemma {:induction false} EarlierTaken(cands: seq<Cand>, g: Grant, late: seq<Grant>, n: nat)
    requires n < |cands| && g.cand < |cands|
    ensures Taken(cands, [g] + late, n) <==> cands[n].plan.model == cands[g.cand].plan.model || Taken(cands, late, n)
  {
    var all := [g] + late;
    TakenCons(cands, g, late, n);
    if k :| 0 <= k < |all| && all[k].cand < |cands| && cands[all[k].cand].plan.model == cands[n].plan.model {
      if k > 0 {
        assert late[k - 1] == all[k];
      }
    }
  }

  lemma {:induction false} TurnTaken(
      cands: seq<Cand>, pending: seq<nat>, available: seq<nat>, ids: set<nat>, largestFirst: bool, l: Loaded)
    returns (i: nat, step: Step, t: Loaded, left: seq<nat>)
    requires InRange(pending, |cands|) && pending != [] && l == Load(cands, pending, available, ids, largestFirst)
             && l.Loaded?
    ensures i in pending && left == Remove(pending, i) && InRange(left, |cands|)
    ensures OneTurn(cands, available, ids, i, step, t, l)
    ensures t == Load(cands, left, FreeAfter(step, available), IdsAfter(step, cands[i], ids), largestFirst)
  {
    i, step, t := Unfold(cands, pending, available, ids, largestFirst);
    left := Remove(pending, i);
    EitherOr(cands, left, FreeAfter(step, available), IdsAfter(step, cands[i], ids), largestFirst);
  }

  lemma {:induction false} TurnBefore(
      cands: seq<Cand>, pending: seq<nat>, available: seq<nat>, ids: set<nat>, i: nat, step: Step, t: Loaded, l: Loaded,
      left: seq<nat>, j: nat)
    requires OneTurn(cands, available, ids, i, step, t, l) && Distinct(available) && left == Remove(pending, i)
    requires j >= 1 && TurnAt(cands, left, FreeAfter(step, available), IdsAfter(step, cands[i], ids), t, j - 1)
    ensures TurnAt(cands, pending, available, ids, l, j)
  {
    LaterTurn(cands, available, ids, i, step, t, l, j);
  }

  /** Every turn of the loop, told by the order and the grants. */
  lemma {:induction false} TurnsExact(
      cands: seq<Cand>, pending: seq<nat>, available: seq<nat>, ids: set<nat>, largestFirst: bool, l: Loaded, j: nat)
    requires InRange(pending, |cands|) && Distinct(available)
    requires l == Load(cands, pending, available, ids, largestFirst) && l.Loaded? && j < |l.order|
    ensures TurnAt(cands, pending, available, ids, l, j)
    decreases |pending|, 1
  {
    var i, step, t, left := TurnTaken(cands, pending, available, ids, largestFirst, l);
    if j == 0 {
      FirstTurn(cands, pending, available, ids, i, step, t, l, j);
    } else {
      var free, ids' := NextTurn(cands, available, ids, i, step, t, l);
      LaterTurns(cands, pending, available, ids, largestFirst, i, step, t, l, left, free, ids', j);
    }
  }

  lemma {:induction false} LaterTurns(
      cands: seq<Cand>, pending: seq<nat>, available: seq<nat>, ids: set<nat>, largestFirst: bool, i: nat, step: Step,
      t: Loaded, l: Loaded, left: seq<nat>, free: seq<nat>, ids': set<nat>, j: nat)
    requires OneTurn(cands, available, ids, i, step, t, l) && Distinct(available) && Distinct(free)
    requires free == FreeAfter(step, available) && ids' == IdsAfter(step, cands[i], ids)
    requires InRange(left, |cands|) && left == Remove(pending, i) && |left| < |pending|
    requires t == Load(cands, left, free, ids', largestFirst) && 1 <= j <= |t.order|
    ensures TurnAt(cands, pending, available, ids, l, j)
    decreases |pending|, 0
  {
    TurnsExact(cands, left, free, ids', largestFirst, t, j - 1);
    TurnBefore(cands, pending, available, ids, i, step, t, l, left, j);
  }

  lemma {:induction false} NextTurn(
      cands: seq<Cand>, available: seq<nat>, ids: set<nat>, i: nat, step: Step, t: Loaded, l: Loaded)
    returns (free: seq<nat>, ids': set<nat>)
    requires OneTurn(cands, available, ids, i, step, t, l) && Distinct(available)
    ensures free == FreeAfter(step, available) && Distinct(free) && ids' == IdsAfter(step, cands[i], ids)
    ensures t.Loaded? && |l.order| == |t.order| + 1
  {
    StepExact(cands[i], available, ids);
    free, ids' := FreeAfter(step, available), IdsAfter(step, cands[i], ids);
  }
}
