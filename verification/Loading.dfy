/** Choosing which candidate plans to launch on the GPUs that are free. */
module Loading {
  import opened Lists
  import opened StableSort
  import opened GpuUnits
  import opened Placement
  import opened Acyclic

  /** A candidate as it is when the loop starts. */
  datatype Cand = Cand(plan: Plan, launched: bool, gpus: seq<nat>)

  datatype Grant = Grant(cand: nat, gpus: seq<nat>)

  /** The candidates in the order the loop considered them, what was granted, which new plans were
      too large, and the GPUs that are left. NoRoot: every candidate depends on another one. */
  datatype Loaded = Loaded(order: seq<nat>, grants: seq<Grant>, rejected: seq<nat>, rest: seq<nat>) | NoRoot

  function Models(cands: seq<Cand>, pending: seq<nat>): (s: set<nat>)
    requires InRange(pending, |cands|)
    ensures forall m :: m in s <==> exists i :: i in pending && cands[i].plan.model == m
  {
    set i | i in pending :: cands[i].plan.model
  }

  predicate IsRoot(cands: seq<Cand>, pending: seq<nat>, i: nat)
    requires InRange(pending, |cands|) && i < |cands|
  {
    cands[i].plan.inputs * Models(cands, pending) == {}
  }

  /** The first of the list that depends on none of `pending`. */
  function Roots(cands: seq<Cand>, pending: seq<nat>, list: seq<nat>): (r: seq<nat>)
    requires InRange(pending, |cands|) && InRange(list, |cands|)
    ensures InRange(r, |cands|)
    ensures forall i :: i in r <==> i in list && IsRoot(cands, pending, i)
    decreases |list|
  {
    if list == [] then []
    else
      var last := list[|list| - 1];
      Roots(cands, pending, list[..|list| - 1]) + (if IsRoot(cands, pending, last) then [last] else [])
  }

  function Larger(cands: seq<Cand>): (nat, nat) -> bool {
    (a: nat, b: nat) => a < |cands| && (b >= |cands| || cands[a].plan.Size() > cands[b].plan.Size())
  }

  /** The candidates to choose from: the roots, for most strategies the largest first. */
  function Choice(cands: seq<Cand>, pending: seq<nat>, largestFirst: bool): (c: seq<nat>)
    requires InRange(pending, |cands|)
    ensures InRange(c, |cands|) && forall i :: i in c <==> i in pending && IsRoot(cands, pending, i)
  {
    var roots := Roots(cands, pending, pending);
    if largestFirst then
      SortRoots(roots, Larger(cands), |cands|);
      SortBy(roots, Larger(cands))
    else roots
  }

  lemma {:induction false} SortRoots(s: seq<nat>, above: (nat, nat) -> bool, n: nat)
    requires InRange(s, n)
    ensures InRange(SortBy(s, above), n) && forall i :: i in SortBy(s, above) <==> i in s
  {
    forall i ensures i in SortBy(s, above) <==> i in s {
      SortMember(s, above, i);
    }
    var r := SortBy(s, above);
    forall k | 0 <= k < |r| ensures r[k] < n {
      assert r[k] in r;
    }
  }

  function Remove(pending: seq<nat>, i: nat): (r: seq<nat>)
    ensures |r| <= |pending| && (i in pending ==> |r| < |pending|)
    ensures forall j :: j in r <==> j in pending && j != i
    decreases |pending|
  {
    if pending == [] then []
    else
      var last := pending[|pending| - 1];
      Remove(pending[..|pending| - 1], i) + (if last == i then [] else [last])
  }

  lemma {:induction false} RemoveInRange(pending: seq<nat>, i: nat, n: nat)
    requires InRange(pending, n)
    ensures InRange(Remove(pending, i), n)
  {
    var r := Remove(pending, i);
    forall k | 0 <= k < |r| ensures r[k] < n {
      assert r[k] in r;
    }
  }

  /** What happens to one candidate. */
  datatype Step = Skip | Run(gpus: seq<nat>, rest: seq<nat>) | TooLarge

  function StepOf(c: Cand, available: seq<nat>, ids: set<nat>): Step {
    if c.plan.model in ids then Skip
    else if c.plan.Size() > |available| then TooLarge
    else if c.launched then Run(c.gpus, Without(available, c.gpus))
    else Run(available[..c.plan.Size()], available[c.plan.Size()..])
  }

  function FreeAfter(step: Step, available: seq<nat>): seq<nat> {
    if step.Run? then step.rest else available
  }

  function IdsAfter(step: Step, c: Cand, ids: set<nat>): set<nat> {
    if step.Run? then ids + {c.plan.model} else ids
  }

  /** The loop. */
  function Load(cands: seq<Cand>, pending: seq<nat>, available: seq<nat>, ids: set<nat>, largestFirst: bool): Loaded
    requires InRange(pending, |cands|)
    decreases |pending|
  {
    if pending == [] then Loaded([], [], [], available)
    else
      var choice := Choice(cands, pending, largestFirst);
      if choice == [] then NoRoot
      else
        var i := choice[0];
        RemoveInRange(pending, i, |cands|);
        assert i in choice;
        var left := Remove(pending, i);
        var step := StepOf(cands[i], available, ids);
        var l := Load(cands, left, FreeAfter(step, available), IdsAfter(step, cands[i], ids), largestFirst);
        if l.NoRoot? then l
        else
          Loaded([i] + l.order,
                 (if step.Run? then [Grant(i, step.gpus)] else []) + l.grants,
                 (if step.TooLarge? && !cands[i].launched then [i] else []) + l.rejected,
                 l.rest)
  }

  // ----- the lists

  lemma {:induction false} IncreasingMore(s: seq<nat>, x: nat)
    requires Increasing(s) && forall y :: y in s ==> y < x
    ensures Increasing(s + [x])
  {
    forall j | 0 <= j < |s| ensures s[j] < x {
      assert s[j] in s;
    }
  }

  lemma {:induction false} FrontBelow(s: seq<nat>)
    requires Increasing(s) && s != []
    ensures var f, last := s[..|s| - 1], s[|s| - 1]; Increasing(f) && forall y :: y in f ==> y < last
  {
  }

  lemma {:induction false} RootsIncreasing(cands: seq<Cand>, pending: seq<nat>, list: seq<nat>)
    requires InRange(pending, |cands|) && InRange(list, |cands|) && Increasing(list)
    ensures Increasing(Roots(cands, pending, list))
    decreases |list|
  {
    if list != [] {
      FrontBelow(list);
      RootsIncreasing(cands, pending, list[..|list| - 1]);
      IncreasingMore(Roots(cands, pending, list[..|list| - 1]), list[|list| - 1]);
    }
  }

  lemma {:induction false} RemoveIncreasing(pending: seq<nat>, i: nat)
    requires Increasing(pending)
    ensures Increasing(Remove(pending, i))
    decreases |pending|
  {
    if pending != [] {
      FrontBelow(pending);
      RemoveIncreasing(pending[..|pending| - 1], i);
      IncreasingMore(Remove(pending[..|pending| - 1], i), pending[|pending| - 1]);
    }
  }

  lemma {:induction false} LargerWeak(cands: seq<Cand>)
    ensures WeakOrder(Larger(cands))
  {
  }

  /** The choice is a root; with `largestFirst` no root is larger, and of equally large ones it is
      the first in the list. */
  ghost predicate Best(cands: seq<Cand>, pending: seq<nat>, i: nat, largestFirst: bool)
    requires InRange(pending, |cands|)
  {
    && i in pending && IsRoot(cands, pending, i)
    && forall j :: j in pending && j != i && IsRoot(cands, pending, j) ==>
         if largestFirst then
           cands[i].plan.Size() > cands[j].plan.Size() || (cands[i].plan.Size() == cands[j].plan.Size() && i < j)
         else i < j
  }

  lemma {:induction false} ChoiceBest(cands: seq<Cand>, pending: seq<nat>, largestFirst: bool)
    requires InRange(pending, |cands|) && Increasing(pending) && Choice(cands, pending, largestFirst) != []
    ensures Best(cands, pending, Choice(cands, pending, largestFirst)[0], largestFirst)
  {
    var roots, c := Roots(cands, pending, pending), Choice(cands, pending, largestFirst);
    RootsIncreasing(cands, pending, pending);
    LargerWeak(cands);
    SortStable(roots, Larger(cands));
    assert c[0] in c;
    forall j | j in pending && j != c[0] && IsRoot(cands, pending, j)
      ensures if largestFirst then Precedes(c[0], j, Larger(cands)) else c[0] < j
    {
      assert j in c;
      var k :| 0 <= k < |c| && c[k] == j;
    }
  }

  // ----- dependencies

  /** The candidates' models with the models they read from. */
  function InputGraph(cands: seq<Cand>, pending: seq<nat>): (g: Graph)
    requires InRange(pending, |cands|)
    ensures g.Keys == Models(cands, pending)
  {
    map m | m in Models(cands, pending) :: InputsOf(cands, pending, m)
  }

  function InputsOf(cands: seq<Cand>, pending: seq<nat>, m: nat): (d: set<nat>)
    requires InRange(pending, |cands|)
    ensures forall x :: x in d <==> exists i :: i in pending && cands[i].plan.model == m && x in cands[i].plan.inputs
  {
    set i, x | i in pending && cands[i].plan.model == m && x in cands[i].plan.inputs :: x
  }

  /** Plans of the same model read from the same models. */
  ghost predicate SameInputs(cands: seq<Cand>) {
    forall i, j :: 0 <= i < |cands| && 0 <= j < |cands| && cands[i].plan.model == cands[j].plan.model
      ==> cands[i].plan.inputs == cands[j].plan.inputs
  }

  lemma {:induction false} AllDepend(cands: seq<Cand>, pending: seq<nat>, m: nat)
    requires InRange(pending, |cands|) && m in Models(cands, pending)
    requires forall i :: i in pending ==> !IsRoot(cands, pending, i)
    ensures m in InputGraph(cands, pending) && InputGraph(cands, pending)[m] * Models(cands, pending) != {}
  {
    var s := Models(cands, pending);
    var i :| i in pending && cands[i].plan.model == m;
    var x :| x in cands[i].plan.inputs * s;
    assert x in InputsOf(cands, pending, m) * s;
  }

  /** Without a candidate to choose the dependencies have a cycle. */
  lemma {:induction false} NoChoiceCycle(cands: seq<Cand>, pending: seq<nat>, largestFirst: bool)
    requires InRange(pending, |cands|) && pending != [] && Choice(cands, pending, largestFirst) == []
    ensures HasCycle(InputGraph(cands, pending))
  {
    var s := Models(cands, pending);
    assert pending[0] in pending;
    assert cands[pending[0]].plan.model in s;
    forall i | i in pending ensures !IsRoot(cands, pending, i) {
      assert i !in Choice(cands, pending, largestFirst);
    }
    forall m | m in s ensures m in InputGraph(cands, pending) && InputGraph(cands, pending)[m] * s != {} {
      AllDepend(cands, pending, m);
    }
    var p := NoSourceCycle(InputGraph(cands, pending), s);
  }

  lemma {:induction false} SmallerGraph(cands: seq<Cand>, pending: seq<nat>, left: seq<nat>)
    requires InRange(pending, |cands|) && InRange(left, |cands|) && SameInputs(cands)
    requires forall i :: i in left ==> i in pending
    ensures HasCycle(InputGraph(cands, left)) ==> HasCycle(InputGraph(cands, pending))
  {
    var g, h := InputGraph(cands, pending), InputGraph(cands, left);
    if HasCycle(h) {
      var p: seq<nat> :| Cycle(h, p);
      forall i | 0 <= i < |p| - 1 ensures p[i] in g && p[i + 1] in g[p[i]] {
        assert p[i] in h && p[i + 1] in h[p[i]];
        assert p[i + 1] in InputsOf(cands, left, p[i]);
      }
      assert Cycle(g, p);
    }
  }

  /** A root is on no cycle, so removing it leaves every cycle in place. */
  lemma {:induction false} CycleStays(cands: seq<Cand>, pending: seq<nat>, i: nat)
    requires InRange(pending, |cands|) && SameInputs(cands) && i in pending && IsRoot(cands, pending, i)
    ensures InRange(Remove(pending, i), |cands|)
    ensures HasCycle(InputGraph(cands, pending)) ==> HasCycle(InputGraph(cands, Remove(pending, i)))
  {
    RemoveInRange(pending, i, |cands|);
    var g, left := InputGraph(cands, pending), Remove(pending, i);
    var h, s := InputGraph(cands, left), Models(cands, pending);
    if HasCycle(g) {
      var p: seq<nat> :| Cycle(g, p);
      CycleIn(g, p);
      forall k | 0 <= k < |p| - 1 ensures p[k] in h && p[k + 1] in h[p[k]] {
        CycleAvoids(g, s, p, k);
        assert p[k + 1] in InputsOf(cands, pending, p[k]);
        var j :| j in pending && cands[j].plan.model == p[k] && p[k + 1] in cands[j].plan.inputs;
        assert p[k + 1] in s;
        assert p[k + 1] in cands[j].plan.inputs * s;
        assert j != i;
        assert j in left;
      }
      assert Cycle(h, p);
    }
  }

  lemma {:induction false} CycleIn(g: Graph, p: seq<nat>)
    requires Cycle(g, p)
    ensures forall k :: 0 <= k < |p| ==> p[k] in g.Keys
  {
  }

  /** The loop finishes if and only if the candidates' dependencies have no cycle. */
  lemma {:induction false} LoadsIff(
      cands: seq<Cand>, pending: seq<nat>, available: seq<nat>, ids: set<nat>, largestFirst: bool)
    requires InRange(pending, |cands|) && SameInputs(cands)
    ensures Load(cands, pending, available, ids, largestFirst).Loaded? <==> !HasCycle(InputGraph(cands, pending))
    decreases |pending|
  {
    if pending == [] {
      NothingNoCycle(cands, pending);
    } else {
      var c := Choice(cands, pending, largestFirst);
      if c == [] {
        NoChoiceCycle(cands, pending, largestFirst);
      } else {
        assert c[0] in c;
        var left, step := Remove(pending, c[0]), StepOf(cands[c[0]], available, ids);
        CycleStays(cands, pending, c[0]);
        SmallerGraph(cands, pending, left);
        LoadsIff(cands, left, FreeAfter(step, available), IdsAfter(step, cands[c[0]], ids), largestFirst);
      }
    }
  }

  lemma {:induction false} NothingNoCycle(cands: seq<Cand>, pending: seq<nat>)
    requires pending == []
    ensures !HasCycle(InputGraph(cands, pending))
  {
    forall p: seq<nat> ensures !Cycle(InputGraph(cands, pending), p) {
      if |p| >= 2 {
        assert p[0] !in InputGraph(cands, pending);
      }
    }
  }

  // ----- the order

  /** Every candidate comes after those it depends on, and at each point the best one is next. */
  ghost predicate Topological(cands: seq<Cand>, pending: seq<nat>, order: seq<nat>, largestFirst: bool)
    requires InRange(pending, |cands|)
    decreases |order|
  {
    if order == [] then pending == []
    else
      RemoveInRange(pending, order[0], |cands|);
      Best(cands, pending, order[0], largestFirst)
        && Topological(cands, Remove(pending, order[0]), order[1..], largestFirst)
  }

  lemma {:induction false} LoadTopological(
      cands: seq<Cand>, pending: seq<nat>, available: seq<nat>, ids: set<nat>, largestFirst: bool)
    requires InRange(pending, |cands|) && Increasing(pending)
    requires Load(cands, pending, available, ids, largestFirst).Loaded?
    ensures Topological(cands, pending, Load(cands, pending, available, ids, largestFirst).order, largestFirst)
    decreases |pending|
  {
    if pending != [] {
      var i := Choice(cands, pending, largestFirst)[0];
      var left, step := Remove(pending, i), StepOf(cands[i], available, ids);
      ChoiceBest(cands, pending, largestFirst);
      RemoveIncreasing(pending, i);
      RemoveInRange(pending, i, |cands|);
      LoadTopological(cands, left, FreeAfter(step, available), IdsAfter(step, cands[i], ids), largestFirst);
      var order := Load(cands, pending, available, ids, largestFirst).order;
      assert order[1..]
             == Load(cands, left, FreeAfter(step, available), IdsAfter(step, cands[i], ids), largestFirst).order;
    }
  }

  /** Read off the whole order: nothing is considered before a candidate it reads from. */
  lemma {:induction false} InputsFirst(
      cands: seq<Cand>, pending: seq<nat>, order: seq<nat>, largestFirst: bool, j: nat, k: nat)
    requires InRange(pending, |cands|) && Topological(cands, pending, order, largestFirst) && j < k < |order|
    ensures order[k] in pending && order[j] in pending
    ensures cands[order[k]].plan.model !in cands[order[j]].plan.inputs
    decreases |order|, 1
  {
    OrderMember(cands, pending, order, largestFirst, j);
    OrderMember(cands, pending, order, largestFirst, k);
    if j == 0 {
      RootReadsNone(cands, pending, order[0], order[k]);
    } else {
      LaterInputsFirst(cands, pending, order, largestFirst, j, k);
    }
  }

  lemma {:induction false} RootReadsNone(cands: seq<Cand>, pending: seq<nat>, i: nat, j: nat)
    requires InRange(pending, |cands|) && i in pending && j in pending && IsRoot(cands, pending, i)
    ensures cands[j].plan.model !in cands[i].plan.inputs
  {
    assert cands[j].plan.model in Models(cands, pending);
    NotBoth(cands[i].plan.inputs, Models(cands, pending), cands[j].plan.model);
  }

  lemma {:induction false} LaterInputsFirst(
      cands: seq<Cand>, pending: seq<nat>, order: seq<nat>, largestFirst: bool, j: nat, k: nat)
    requires InRange(pending, |cands|) && Topological(cands, pending, order, largestFirst) && 0 < j < k < |order|
    requires order[j] < |cands| && order[k] < |cands|
    ensures cands[order[k]].plan.model !in cands[order[j]].plan.inputs
    decreases |order|, 0
  {
    var tail := order[1..];
    assert tail[j - 1] == order[j] && tail[k - 1] == order[k];
    RemoveInRange(pending, order[0], |cands|);
    InputsFirst(cands, Remove(pending, order[0]), tail, largestFirst, j - 1, k - 1);
  }

  lemma {:induction false} NotBoth(a: set<nat>, b: set<nat>, x: nat)
    requires a * b == {} && x in b
    ensures x !in a
  {
    assert x in a * b <==> x in a && x in b;
  }

  lemma {:induction false} OrderMember(cands: seq<Cand>, pending: seq<nat>, order: seq<nat>, largestFirst: bool, k: nat)
    requires InRange(pending, |cands|) && Topological(cands, pending, order, largestFirst) && k < |order|
    ensures order[k] in pending
    decreases |order|
  {
    if k > 0 {
      RemoveInRange(pending, order[0], |cands|);
      OrderMember(cands, Remove(pending, order[0]), order[1..], largestFirst, k - 1);
      assert order[1..][k - 1] == order[k];
    }
  }

  /** The order considers every candidate exactly once. */
  lemma {:induction false} OrderComplete(cands: seq<Cand>, pending: seq<nat>, order: seq<nat>, largestFirst: bool)
    requires InRange(pending, |cands|) && Topological(cands, pending, order, largestFirst)
    ensures Distinct(order) && forall i :: i in order <==> i in pending
    decreases |order|
  {
    if order != [] {
      var left, tail := Remove(pending, order[0]), order[1..];
      RemoveInRange(pending, order[0], |cands|);
      OrderComplete(cands, left, tail, largestFirst);
      assert order == [order[0]] + tail;
      assert order[0] !in tail;
    }
  }

  // ----- the GPUs

  /** One pass of the loop. */
  lemma {:induction false} Unfold(
      cands: seq<Cand>, pending: seq<nat>, available: seq<nat>, ids: set<nat>, largestFirst: bool)
    returns (i: nat, step: Step, t: Loaded)
    requires InRange(pending, |cands|) && pending != [] && Load(cands, pending, available, ids, largestFirst).Loaded?
    ensures i in pending && i < |cands| && InRange(Remove(pending, i), |cands|)
            && step == StepOf(cands[i], available, ids)
    ensures t.Loaded?
    ensures t == Load(cands, Remove(pending, i), FreeAfter(step, available), IdsAfter(step, cands[i], ids),
                      largestFirst)
    ensures Load(cands, pending, available, ids, largestFirst)
            == Loaded([i] + t.order, (if step.Run? then [Grant(i, step.gpus)] else []) + t.grants,
                      (if step.TooLarge? && !cands[i].launched then [i] else []) + t.rejected, t.rest)
  {
    i := Choice(cands, pending, largestFirst)[0];
    assert i in Choice(cands, pending, largestFirst);
    RemoveInRange(pending, i, |cands|);
    step := StepOf(cands[i], available, ids);
    t := Load(cands, Remove(pending, i), FreeAfter(step, available), IdsAfter(step, cands[i], ids), largestFirst);
  }

  function Granted(grants: seq<Grant>): seq<nat> {
    if grants == [] then [] else grants[0].gpus + Granted(grants[1..])
  }

  /** The free GPUs afterwards are exactly those that were not granted. */
  lemma {:induction false} FreeExact(
      cands: seq<Cand>, pending: seq<nat>, available: seq<nat>, ids: set<nat>, largestFirst: bool)
    requires InRange(pending, |cands|) && Distinct(available)
             && Load(cands, pending, available, ids, largestFirst).Loaded?
    ensures var l := Load(cands, pending, available, ids, largestFirst);
            l.rest == Without(available, Granted(l.grants)) && Distinct(l.rest)
    decreases |pending|
  {
    if pending == [] {
      WithoutNothing(available, []);
    } else {
      var i := Choice(cands, pending, largestFirst)[0];
      var left, step := Remove(pending, i), StepOf(cands[i], available, ids);
      RemoveInRange(pending, i, |cands|);
      var free := FreeAfter(step, available);
      var t := Load(cands, left, free, IdsAfter(step, cands[i], ids), largestFirst);
      StepExact(cands[i], available, ids);
      FreeExact(cands, left, free, IdsAfter(step, cands[i], ids), largestFirst);
      var l := Load(cands, pending, available, ids, largestFirst);
      if step.Run? {
        assert l.grants == [Grant(i, step.gpus)] + t.grants;
        assert l.grants[1..] == t.grants;
        WithoutTwice(available, step.gpus, Granted(t.grants));
      } else {
        assert l.grants == t.grants;
      }
    }
  }

  lemma {:induction false} StepExact(c: Cand, available: seq<nat>, ids: set<nat>)
    requires Distinct(available)
    ensures var step := StepOf(c, available, ids);
            && Distinct(FreeAfter(step, available))
            && (step.Run? ==> step.rest == Without(available, step.gpus))
            && (step.Run? && !c.launched ==>
                  |step.gpus| == c.plan.Size() && Distinct(step.gpus) && available == step.gpus + step.rest)
  {
    var step := StepOf(c, available, ids);
    if step.Run? && !c.launched {
      DropIsWithout(available, c.plan.Size());
    }
    if step.Run? && c.launched {
      WithoutKeeps(available, c.gpus);
    }
  }

  /** Granted to a plan that was not running. */
  ghost predicate New(cands: seq<Cand>, g: Grant) {
    g.cand < |cands| && !cands[g.cand].launched
  }

  /** New plans get exactly as many GPUs as they need, all of them free before and no longer free
      afterwards, and no GPU twice; running plans keep theirs. One plan per model is chosen, and a
      new plan is turned away only if it is larger than what is left. */
  ghost predicate GrantsSound(cands: seq<Cand>, pending: seq<nat>, available: seq<nat>, ids: set<nat>, l: Loaded)
    requires InRange(pending, |cands|) && l.Loaded?
  {
    && (forall k :: 0 <= k < |l.grants| ==> l.grants[k].cand in pending)
    && (forall k :: 0 <= k < |l.grants| && New(cands, l.grants[k]) ==> GrantFits(cands, available, l, l.grants[k]))
    && (forall k :: 0 <= k < |l.grants| && !New(cands, l.grants[k]) ==>
        l.grants[k].gpus == cands[l.grants[k].cand].gpus)
    && (forall j, k :: 0 <= j < k < |l.grants| && New(cands, l.grants[k]) ==> Apart(l.grants[k].gpus, l.grants[j].gpus))
    && (forall k :: 0 <= k < |l.grants| ==> cands[l.grants[k].cand].plan.model !in ids)
    && (forall j, k :: 0 <= j < k < |l.grants| ==>
          cands[l.grants[j].cand].plan.model != cands[l.grants[k].cand].plan.model)
    && (forall i :: i in l.rejected ==> i in pending && !cands[i].launched && cands[i].plan.Size() > |l.rest|)
  }

  ghost predicate GrantFits(cands: seq<Cand>, available: seq<nat>, l: Loaded, g: Grant)
    requires l.Loaded? && g.cand < |cands|
  {
    && |g.gpus| == cands[g.cand].plan.Size() && Distinct(g.gpus)
    && (forall x :: x in g.gpus ==> x in available && x !in l.rest)
  }

  lemma {:induction false} RestWithin(
      cands: seq<Cand>, pending: seq<nat>, available: seq<nat>, ids: set<nat>, largestFirst: bool)
    requires InRange(pending, |cands|) && Distinct(available)
             && Load(cands, pending, available, ids, largestFirst).Loaded?
    ensures var l := Load(cands, pending, available, ids, largestFirst);
            |l.rest| <= |available| && forall g :: g in l.rest <==> g in available && g !in Granted(l.grants)
  {
    var l := Load(cands, pending, available, ids, largestFirst);
    FreeExact(cands, pending, available, ids, largestFirst);
    forall g ensures g in l.rest <==> g in available && g !in Granted(l.grants) {
      WithoutMember(available, Granted(l.grants), g);
    }
  }

  lemma {:induction false} FrontGpus(
      cands: seq<Cand>, i: nat, available: seq<nat>, ids: set<nat>, step: Step, t: Loaded, l: Loaded)
    requires i < |cands| && Distinct(available) && step == StepOf(cands[i], available, ids) && step.Run? && t.Loaded?
    requires forall k :: 0 <= k < |t.grants| && New(cands, t.grants[k]) ==> GrantFits(cands, step.rest, t, t.grants[k])
    requires forall g :: g in t.rest ==> g in step.rest
    requires l.Loaded? && l.grants == [Grant(i, step.gpus)] + t.grants && l.rest == t.rest
    ensures forall k :: 0 <= k < |l.grants| && New(cands, l.grants[k]) ==> GrantFits(cands, available, l, l.grants[k])
    ensures forall k :: 1 <= k < |l.grants| && New(cands, l.grants[k]) ==> Apart(l.grants[k].gpus, step.gpus)
  {
    StepExact(cands[i], available, ids);
    forall g | g in step.rest ensures g in available && g !in step.gpus {
      WithoutMember(available, step.gpus, g);
    }
    forall k | 0 <= k < |l.grants| && New(cands, l.grants[k])
      ensures GrantFits(cands, available, l, l.grants[k]) && (k >= 1 ==> Apart(l.grants[k].gpus, step.gpus))
    {
      if k == 0 {
        assert available == step.gpus + step.rest;
      } else {
        assert l.grants[k] == t.grants[k - 1];
        assert GrantFits(cands, step.rest, t, t.grants[k - 1]);
      }
    }
  }

  /** Putting a grant in front of sound ones. */
  lemma {:induction false} GrantInFront(
      cands: seq<Cand>, pending: seq<nat>, i: nat, available: seq<nat>, ids: set<nat>, step: Step, t: Loaded, l: Loaded)
    requires InRange(pending, |cands|) && i in pending && i < |cands| && InRange(Remove(pending, i), |cands|)
    requires Distinct(available) && step == StepOf(cands[i], available, ids) && step.Run? && t.Loaded?
    requires GrantsSound(cands, Remove(pending, i), step.rest, ids + {cands[i].plan.model}, t)
    requires forall g :: g in t.rest ==> g in step.rest
    requires l.Loaded? && l.grants == [Grant(i, step.gpus)] + t.grants && l.rejected == t.rejected && l.rest == t.rest
    ensures GrantsSound(cands, pending, available, ids, l)
  {
    FrontGpus(cands, i, available, ids, step, t, l);
    assert l.grants[0] == Grant(i, step.gpus);
    assert forall k :: 1 <= k < |l.grants| ==> l.grants[k] == t.grants[k - 1];
  }

  lemma {:induction false} LoadSound(
      cands: seq<Cand>, pending: seq<nat>, available: seq<nat>, ids: set<nat>, largestFirst: bool)
    requires InRange(pending, |cands|) && Distinct(available)
             && Load(cands, pending, available, ids, largestFirst).Loaded?
    ensures GrantsSound(cands, pending, available, ids, Load(cands, pending, available, ids, largestFirst))
    decreases |pending|
  {
    if pending != [] {
      var i, step, t := Unfold(cands, pending, available, ids, largestFirst);
      var free, ids', left := FreeAfter(step, available), IdsAfter(step, cands[i], ids), Remove(pending, i);
      StepExact(cands[i], available, ids);
      LoadSound(cands, left, free, ids', largestFirst);
      RestWithin(cands, left, free, ids', largestFirst);
      var l := Load(cands, pending, available, ids, largestFirst);
      if step.Run? {
        GrantInFront(cands, pending, i, available, ids, step, t, l);
      } else {
        NoGrantInFront(cands, pending, i, available, ids, step, t, l);
      }
    }
  }

  lemma {:induction false} NoGrantInFront(
      cands: seq<Cand>, pending: seq<nat>, i: nat, available: seq<nat>, ids: set<nat>, step: Step, t: Loaded, l: Loaded)
    requires InRange(pending, |cands|) && i in pending && i < |cands| && InRange(Remove(pending, i), |cands|)
    requires step == StepOf(cands[i], available, ids) && !step.Run? && t.Loaded?
    requires GrantsSound(cands, Remove(pending, i), available, ids, t) && |t.rest| <= |available|
    requires l.Loaded? && l.grants == [] + t.grants && l.rest == t.rest
    requires l.rejected == (if step.TooLarge? && !cands[i].launched then [i] else []) + t.rejected
    ensures GrantsSound(cands, pending, available, ids, l)
  {
    assert l.grants == t.grants;
    forall k | 0 <= k < |l.grants| && New(cands, l.grants[k]) ensures GrantFits(cands, available, l, l.grants[k]) {
      assert GrantFits(cands, available, t, t.grants[k]);
    }
  }

  lemma {:induction false} RunTiles(c: Cand, available: seq<nat>, ids: set<nat>)
    requires !c.launched && StepOf(c, available, ids).Run?
    ensures var step := StepOf(c, available, ids); available == step.gpus + step.rest
  {
  }

  lemma {:induction false} GrantedCons(g: Grant, gs: seq<Grant>, rest: seq<nat>, free: seq<nat>, available: seq<nat>)
    requires Granted(gs) + rest == free && available == g.gpus + free
    ensures Granted([g] + gs) + rest == available
  {
    assert ([g] + gs)[1..] == gs;
    assert g.gpus + Granted(gs) + rest == g.gpus + (Granted(gs) + rest);
  }

  /** Without running candidates the free list is cut into the grants, in order, and the rest. */
  lemma {:induction false} NewGrantsTile(
      cands: seq<Cand>, pending: seq<nat>, available: seq<nat>, ids: set<nat>, largestFirst: bool)
    requires InRange(pending, |cands|) && Load(cands, pending, available, ids, largestFirst).Loaded?
    requires forall i :: i in pending ==> !cands[i].launched
    ensures var l := Load(cands, pending, available, ids, largestFirst); Granted(l.grants) + l.rest == available
    decreases |pending|
  {
    if pending != [] {
      var i, step, t := Unfold(cands, pending, available, ids, largestFirst);
      NewGrantsTile(cands, Remove(pending, i), FreeAfter(step, available), IdsAfter(step, cands[i], ids), largestFirst);
      if step.Run? {
        RunTiles(cands[i], available, ids);
        GrantedCons(Grant(i, step.gpus), t.grants, t.rest, step.rest, available);
      } else {
        assert [] + t.grants == t.grants;
      }
    }
  }

  /** Candidate j is accounted for: its model is chosen, or it needs more GPUs than are left in the
      end, and then it is turned away if it is new. */
  ghost predicate Seen(cands: seq<Cand>, ids: set<nat>, l: Loaded, j: nat)
    requires l.Loaded? && j < |cands|
  {
    || cands[j].plan.model in ids || Taken(cands, l.grants, j)
    || (cands[j].plan.Size() > |l.rest| && (cands[j].launched || j in l.rejected))
  }

  /** Nobody is forgotten, running candidates included. */
  lemma {:induction false} NobodyForgotten(
      cands: seq<Cand>, pending: seq<nat>, available: seq<nat>, ids: set<nat>, largestFirst: bool, j: nat)
    requires InRange(pending, |cands|) && Load(cands, pending, available, ids, largestFirst).Loaded? && j in pending
    requires Distinct(available)
    ensures j < |cands| && Seen(cands, ids, Load(cands, pending, available, ids, largestFirst), j)
    decreases |pending|
  {
    var i, step, t := Unfold(cands, pending, available, ids, largestFirst);
    var l, free := Load(cands, pending, available, ids, largestFirst), FreeAfter(step, available);
    StepExact(cands[i], available, ids);
    RestWithin(cands, Remove(pending, i), free, IdsAfter(step, cands[i], ids), largestFirst);
    if j != i {
      NobodyForgotten(cands, Remove(pending, i), free, IdsAfter(step, cands[i], ids), largestFirst, j);
    }
    SeenCons(cands, ids, i, step, t, l, j, available);
  }

  /** The model of candidate j is taken by one of the grants. */
  ghost predicate Taken(cands: seq<Cand>, grants: seq<Grant>, j: nat)
    requires j < |cands|
  {
    exists k :: 0 <= k < |grants| && grants[k].cand < |cands| && cands[grants[k].cand].plan.model == cands[j].plan.model
  }

  lemma {:induction false} TakenCons(cands: seq<Cand>, g: Grant, grants: seq<Grant>, j: nat)
    requires j < |cands|
    ensures Taken(cands, grants, j) ==> Taken(cands, [g] + grants, j)
    ensures g.cand < |cands| && cands[g.cand].plan.model == cands[j].plan.model ==> Taken(cands, [g] + grants, j)
  {
    if k :| 0 <= k < |grants| && grants[k].cand < |cands| && cands[grants[k].cand].plan.model == cands[j].plan.model {
      assert ([g] + grants)[k + 1] == grants[k];
    }
    assert ([g] + grants)[0] == g;
  }

  lemma {:induction false} SeenCons(
      cands: seq<Cand>, ids: set<nat>, i: nat, step: Step, t: Loaded, l: Loaded, j: nat, available: seq<nat>)
    requires i < |cands| && j < |cands| && t.Loaded? && l.Loaded? && step == StepOf(cands[i], available, ids)
    requires l.rest == t.rest && |t.rest| <= |FreeAfter(step, available)|
    requires l.grants == (if step.Run? then [Grant(i, step.gpus)] else []) + t.grants
    requires l.rejected == (if step.TooLarge? && !cands[i].launched then [i] else []) + t.rejected
    requires j != i ==> Seen(cands, IdsAfter(step, cands[i], ids), t, j)
    ensures Seen(cands, ids, l, j)
  {
    if step.Run? {
      TakenCons(cands, Grant(i, step.gpus), t.grants, j);
    } else {
      assert l.grants == t.grants;
    }
  }

  ghost predicate Exclusive(pending: seq<nat>, grants: seq<Grant>, rejected: seq<nat>) {
    && Distinct(rejected) && (forall i :: i in rejected ==> i in pending)
    && forall k :: 0 <= k < |grants| ==> grants[k].cand in pending && grants[k].cand !in rejected
  }

  lemma {:induction false} ExclusiveCons(pending: seq<nat>, i: nat, grants: seq<Grant>, rejected: seq<nat>)
    requires i in pending && Exclusive(Remove(pending, i), grants, rejected)
    ensures Exclusive(pending, grants, [i] + rejected) && Exclusive(pending, grants, rejected)
    ensures forall g :: Exclusive(pending, [Grant(i, g)] + grants, rejected)
  {
    assert i !in rejected;
  }

  /** A candidate is granted GPUs or turned away at most once, and not both. */
  lemma {:induction false} EitherOr(
      cands: seq<Cand>, pending: seq<nat>, available: seq<nat>, ids: set<nat>, largestFirst: bool)
    requires InRange(pending, |cands|) && Load(cands, pending, available, ids, largestFirst).Loaded?
    ensures var l := Load(cands, pending, available, ids, largestFirst); Exclusive(pending, l.grants, l.rejected)
    decreases |pending|
  {
    if pending != [] {
      var i, step, t := Unfold(cands, pending, available, ids, largestFirst);
      EitherOr(cands, Remove(pending, i), FreeAfter(step, available), IdsAfter(step, cands[i], ids), largestFirst);
      ExclusiveCons(pending, i, t.grants, t.rejected);
      assert [] + t.grants == t.grants && [] + t.rejected == t.rejected;
    }
  }
}
