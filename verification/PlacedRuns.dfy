/** Whole runs: every round decides which plans run and then where they run. */
module PlacedRuns {
  import opened Lists
  import opened Divisibility
  import opened Placement
  import opened Relocation
  import opened RelocationSound
  import opened PlacementStays
  import opened FirstAssignment
  import opened PlanStates
  import opened PlacementRuns
  import opened Acyclic
  import opened StageInvariant
  import opened StagePicks
  import opened StageAdvance
  import opened StageRuns

  // ----- the link between two rounds

  function PlansOf(list: seq<PlanState>): (items: seq<Item>)
    ensures |items| == |list| && forall i :: 0 <= i < |items| ==> items[i] == Item(list[i].plan, Fresh)
  {
    ItemsOf(list, map[])
  }

  /** The running plans have exactly their GPUs, disjoint and well placed. */
  ghost predicate HousedNow(running: seq<PlanState>, tot: nat, unit: nat)
    reads running
  {
    unit >= 1 && AllHoused(PlansOf(running), GpusOf(running), tot, unit)
  }

  /** Position of the plan with the given key, or the length if there is none. */
  function KeyAt(list: seq<PlanState>, key: PlanKey): (i: nat)
    ensures i <= |list| && (i < |list| ==> KeyOf(list[i].plan) == key)
    ensures (exists k :: 0 <= k < |list| && KeyOf(list[k].plan) == key) ==> i < |list|
  {
    if list == [] then 0
    else if KeyOf(list[0].plan) == key then 0
    else
      var i := KeyAt(list[1..], key);
      if i < |list[1..]| then i + 1 else |list|
  }

  /** The table holds the GPUs of listed plans only. */
  ghost predicate TableFrom(table: map<PlanKey, seq<nat>>, list: seq<PlanState>, gs: seq<seq<nat>>)
    requires |gs| == |list|
  {
    forall key :: key in table ==> KeyAt(list, key) < |list| && table[key] == gs[KeyAt(list, key)]
  }

  lemma {:induction false} KeyAtUnique(list: seq<PlanState>, i: nat)
    requires OnePerModel(list) && i < |list|
    ensures KeyAt(list, KeyOf(list[i].plan)) == i
  {
    var k := KeyAt(list, KeyOf(list[i].plan));
    SameIndex(list, i, k);
  }

  function TableOf(list: seq<PlanState>, gs: seq<seq<nat>>): map<PlanKey, seq<nat>>
    requires |gs| == |list|
  {
    if list == [] then map[]
    else TableOf(list[..|list| - 1], gs[..|list| - 1])[KeyOf(list[|list| - 1].plan) := gs[|list| - 1]]
  }

  lemma {:induction false} GpuTableIs(list: seq<PlanState>)
    ensures GpuTable(list) == TableOf(list, GpusOf(list))
  {
    if list != [] {
      var n := |list| - 1;
      GpuTableIs(list[..n]);
      assert GpusOf(list)[..n] == GpusOf(list[..n]);
    }
  }

  lemma {:induction false} TableOfFrom(list: seq<PlanState>, gs: seq<seq<nat>>)
    requires OnePerModel(list) && |gs| == |list|
    ensures TableFrom(TableOf(list, gs), list, gs)
  {
    forall key | key in TableOf(list, gs)
      ensures KeyAt(list, key) < |list| && TableOf(list, gs)[key] == gs[KeyAt(list, key)]
    {
      var i := TableAt(list, gs, key);
      KeyAtUnique(list, i);
    }
  }

  lemma {:induction false} TableAt(list: seq<PlanState>, gs: seq<seq<nat>>, key: PlanKey) returns (i: nat)
    requires |gs| == |list| && key in TableOf(list, gs)
    ensures i < |list| && KeyOf(list[i].plan) == key && TableOf(list, gs)[key] == gs[i]
  {
    i := |list| - 1;
    if key != KeyOf(list[i].plan) {
      i := TableAt(list[..i], gs[..i], key);
    }
  }

  function Sources(list: seq<PlanState>, next: seq<PlanState>): (src: seq<nat>)
    ensures |src| == |next| && forall i :: 0 <= i < |src| ==> src[i] == KeyAt(list, KeyOf(next[i].plan))
  {
    seq(|next|, i requires 0 <= i < |next| => KeyAt(list, KeyOf(next[i].plan)))
  }

  /** With one plan per model in both rounds, no two plans take over the same GPUs. */
  lemma {:induction false} RoundFollows(
      list: seq<PlanState>, gs: seq<seq<nat>>, next: seq<PlanState>, table: map<PlanKey, seq<nat>>)
    requires OnePerModel(next) && |gs| == |list| && TableFrom(table, list, gs)
    ensures Follows(PlansOf(list), gs, ItemsOf(next, table), Sources(list, next))
  {
    var items, src := ItemsOf(next, table), Sources(list, next);
    forall i | 0 <= i < |items| && items[i].held.Kept?
      ensures src[i] < |list| && KeyOf(items[i].plan) == KeyOf(list[src[i]].plan) && items[i].held.gpus == gs[src[i]]
    {
      assert KeyOf(next[i].plan) in table;
    }
    forall i: nat, j: nat | i < |next| && j < |next| && i != j && items[i].held.Kept? && items[j].held.Kept?
      ensures src[i] != src[j]
    {
      OtherModel(next, i, j);
    }
  }

  // ----- what the plans have to be like

  /** Worker counts and unit are powers of two, and loading all the plans the machine can hold costs
      less than the mark for units that must not be cleared. */
  ghost predicate PlansFit(groups: Groups, tot: nat, unit: nat) {
    && PowerOfTwo(unit) && Divides(unit, tot)
    && forall s: nat, p :: s < |groups| && p in groups[s] ==>
         PowerOfTwo(p.plan.width) && p.plan.copies >= 1 && p.plan.load * tot < TOO_DEAR
  }

  function DemandOf(list: seq<PlanState>): nat {
    Total(Sizes(PlansOf(list)))
  }

  lemma {:induction false} SizeAtLeastOne(p: Plan)
    requires p.width >= 1 && p.copies >= 1
    ensures p.Size() >= 1
  {
  }

  lemma {:induction false} SumsBounded(sizes: seq<nat>, loads: seq<nat>, order: seq<nat>, tot: nat)
    requires |sizes| == |loads| && InRange(order, |sizes|)
    requires forall i :: 0 <= i < |sizes| ==> sizes[i] >= 1 && loads[i] * tot < TOO_DEAR
    ensures |order| <= SumAt(sizes, order) && SumAt(loads, order) * tot <= |order| * (TOO_DEAR - 1)
    decreases |order|
  {
    if order != [] {
      var front, last := order[..|order| - 1], order[|order| - 1];
      SumsBounded(sizes, loads, front, tot);
      Distribute(SumAt(loads, front), loads[last], tot);
      Distribute(|front|, 1, TOO_DEAR - 1);
    }
  }

  lemma {:induction false} Distribute(a: int, b: int, c: int)
    ensures (a + b) * c == a * c + b * c
  {
  }

  lemma {:induction false} LoadsBelow(sum: nat, n: nat, tot: nat)
    requires n <= tot && sum * tot <= n * (TOO_DEAR - 1) && (n == 0 ==> sum == 0)
    ensures sum < TOO_DEAR
  {
    MulAtLeast(n, tot, TOO_DEAR - 1);
    if sum >= TOO_DEAR {
      MulAtLeast(TOO_DEAR, sum, tot);
      assert false;
    }
  }

  lemma {:induction false} MulAtLeast(a: nat, b: nat, c: nat)
    requires a <= b
    ensures a * c <= b * c
  {
  }

  /** Only the demand is left to ask of a round. */
  lemma {:induction false} RoundFits(
      groups: Groups, next: seq<PlanState>, items: seq<Item>, tot: nat, unit: nat)
    requires PlansFit(groups, tot, unit) && (forall p :: p in next ==> Stage(groups, p)) && DemandOf(next) <= tot
    requires |items| == |next| && forall i :: 0 <= i < |items| ==> items[i].plan == next[i].plan
    ensures FitsMachine(items, tot, unit)
  {
    forall i | 0 <= i < |items|
      ensures PowerOfTwo(items[i].plan.width) && items[i].plan.copies >= 1 && items[i].plan.load * tot < TOO_DEAR
      ensures items[i].plan.Size() >= 1
    {
      assert next[i] in next;
      SizeAtLeastOne(items[i].plan);
    }
    PowersFit(items, unit);
    assert Sizes(items) == Sizes(PlansOf(next));
    SumsBounded(Sizes(items), Loads(items), UpTo(|items|), tot);
    LoadsBelow(Total(Loads(items)), |items|, tot);
  }

  // ----- one round

  lemma {:induction false} NextAdjustable(
      list: seq<PlanState>, gs: seq<seq<nat>>, next: seq<PlanState>, table: map<PlanKey, seq<nat>>, tot: nat, unit: nat)
    requires OnePerModel(next) && |gs| == |list| && TableFrom(table, list, gs)
    requires unit >= 1 && AllHoused(PlansOf(list), gs, tot, unit)
    ensures Adjustable(ItemsOf(next, table), tot, unit)
  {
    RoundFollows(list, gs, next, table);
    FollowsAdjustable(PlansOf(list), gs, ItemsOf(next, table), Sources(list, next), tot, unit);
  }

  /** What the specification says about the placement of a round that fits the machine. */
  lemma {:induction false} RoundSound(
      groups: Groups, list: seq<PlanState>, gs: seq<seq<nat>>, next: seq<PlanState>, items: seq<Item>,
      table: map<PlanKey, seq<nat>>, tot: nat, unit: nat)
    requires PlansFit(groups, tot, unit) && (forall p :: p in next ==> Stage(groups, p)) && DemandOf(next) <= tot
    requires OnePerModel(next) && |gs| == |list| && TableFrom(table, list, gs) && items == ItemsOf(next, table)
    requires unit >= 1 && AllHoused(PlansOf(list), gs, tot, unit)
    ensures var spec := Relocate(items, tot, unit);
            && spec != UnitBroken
            && (spec == NoUnits <==> forall g: nat :: g < tot ==> HeldWide(items, unit, g))
            && (spec.Placed? ==>
                 && AllHoused(PlansOf(next), spec.gpus, tot, unit)
                 && (forall i :: 0 <= i < |items| && KeptWide(items[i], unit) ==> spec.gpus[i] == items[i].held.gpus)
                 && (NobodyNew(items) ==> spec.gpus == Base(items) && spec.movers == []))
  {
    RoundFits(groups, next, items, tot, unit);
    RoundFollows(list, gs, next, table);
    NextRelocatable(PlansOf(list), gs, items, Sources(list, next), tot, unit);
    NoUnitsIff(items, tot, unit);
    if Relocate(items, tot, unit).Placed? {
      RelocationHouses(items, tot, unit);
      SameHoused(items, next, Relocate(items, tot, unit).gpus, tot, unit);
      if NobodyNew(items) {
        FollowsWell(PlansOf(list), gs, items, Sources(list, next), tot, unit);
        NobodyMoves(items, tot, unit);
      }
    }
  }

  ghost predicate NobodyNew(items: seq<Item>) {
    forall i :: 0 <= i < |items| ==> items[i].held.Kept?
  }

  /** When no plan is new, all were placed well in the round before. */
  lemma {:induction false} FollowsWell(
      items: seq<Item>, gs: seq<seq<nat>>, next: seq<Item>, src: seq<nat>, tot: nat, unit: nat)
    requires unit >= 1 && AllHoused(items, gs, tot, unit) && Follows(items, gs, next, src) && NobodyNew(next)
    ensures AllWell(next, tot, unit)
  {
    var b := Base(next);
    FollowsAdjustable(items, gs, next, src, tot, unit);
    forall i, j | 0 <= i < |b| && 0 <= j < |b| && i != j ensures Apart(b[i], b[j]) {
      assert b[i] == gs[src[i]] && b[j] == gs[src[j]] && src[i] != src[j];
    }
    forall i, g | 0 <= i < |b| && g in b[i] ensures g < tot {
      assert b[i] == gs[src[i]];
    }
  }

  lemma {:induction false} SameHoused(items: seq<Item>, list: seq<PlanState>, gs: seq<seq<nat>>, tot: nat, unit: nat)
    requires unit >= 1 && AllHoused(items, gs, tot, unit) && |items| == |list|
    requires forall i :: 0 <= i < |items| ==> items[i].plan == list[i].plan
    ensures AllHoused(PlansOf(list), gs, tot, unit)
  {
  }

  /** The outcome of placing a round that fits: the assertion holds; it fails only if wide plans that
      keep running hold every GPU; otherwise all are well placed, those wide plans have not moved, and
      if no plan is new nobody has. */
  ghost predicate PlacedAs(
      list: seq<PlanState>, items: seq<Item>, gs: seq<seq<nat>>, r: Adjustment, tot: nat, unit: nat)
    requires |items| == |list| == |gs|
  {
    && unit >= 1 && !r.AssertionFailed?
    && (r.NothingToJoin? <==> forall g: nat :: g < tot ==> HeldWide(items, unit, g))
    && (r.Adjusted? ==>
         && AllHoused(PlansOf(list), gs, tot, unit)
         && (forall i :: 0 <= i < |items| && KeptWide(items[i], unit) ==> gs[i] == items[i].held.gpus)
         && (NobodyNew(items) ==> r.movers == [] && gs == Base(items)))
  }

  /** Placing fails or succeeds as specified, whatever the demand. */
  ghost predicate AsSpecified(items: seq<Item>, gs: seq<seq<nat>>, r: Adjustment, tot: nat, unit: nat)
    requires unit >= 1
  {
    var spec := Relocate(items, tot, unit);
    && (r.AssertionFailed? <==> spec == UnitBroken) && (r.NothingToJoin? <==> spec == NoUnits)
    && (r.Adjusted? ==> spec == Outcome.Placed(gs, r.movers))
  }

  method PlaceRound(
      groups: Groups, ghost list: seq<PlanState>, next: seq<PlanState>, table: map<PlanKey, seq<nat>>,
      ghost gs: seq<seq<nat>>, tot: nat, unit: nat)
    returns (r: Adjustment)
    requires PlansFit(groups, tot, unit) && (forall p :: p in next ==> Stage(groups, p)) && OnePerModel(next)
    requires |gs| == |list| && TableFrom(table, list, gs) && unit >= 1 && AllHoused(PlansOf(list), gs, tot, unit)
    modifies next`gpus
    ensures AsSpecified(ItemsOf(next, table), GpusOf(next), r, tot, unit)
    ensures DemandOf(next) <= tot ==> PlacedAs(next, ItemsOf(next, table), GpusOf(next), r, tot, unit)
  {
    OneIsDifferent(next);
    NextAdjustable(list, gs, next, table, tot, unit);
    r := AdjustGpus(next, table, tot, unit);
    if DemandOf(next) <= tot {
      RoundSound(groups, list, gs, next, ItemsOf(next, table), table, tot, unit);
    }
  }

  ghost predicate StageNow(groups: Groups, running: seq<PlanState>, cands: seq<PlanState>, target: nat, fin: set<nat>)
    reads AllPlans(groups)
  {
    StageInv(groups, running, cands, target, On(AllPlans(groups)), fin)
  }

  /** Placing changes nothing about the stages. */
  method PlaceStage(
      groups: Groups, ghost list: seq<PlanState>, next: seq<PlanState>, ghost cands: seq<PlanState>, ghost target: nat,
      ghost fin: set<nat>, table: map<PlanKey, seq<nat>>, ghost gs: seq<seq<nat>>, tot: nat, unit: nat)
    returns (r: Adjustment)
    requires PlansFit(groups, tot, unit) && StageNow(groups, next, cands, target, fin)
    requires |gs| == |list| && TableFrom(table, list, gs) && unit >= 1 && AllHoused(PlansOf(list), gs, tot, unit)
    modifies next`gpus
    ensures StageNow(groups, next, cands, target, fin)
    ensures AsSpecified(ItemsOf(next, table), GpusOf(next), r, tot, unit)
    ensures DemandOf(next) <= tot ==> PlacedAs(next, ItemsOf(next, table), GpusOf(next), r, tot, unit)
  {
    r := PlaceRound(groups, list, next, table, gs, tot, unit);
    SameOn(AllPlans(groups));
  }

  twostate lemma SameOn(all: set<PlanState>)
    requires forall p :: p in all ==> p.launched == old(p.launched)
    ensures On(all) == old(On(all))
  {
  }

  method NextKeeping(
      groups: Groups, running: seq<PlanState>, cands: seq<PlanState>, target: nat, tot: nat,
      seen: nat -> set<nat>, now: nat, keepOrder: bool, ghost system: Graph)
    returns (running': seq<PlanState>, cands': seq<PlanState>, target': nat, now': nat, ghost picks: seq<Picked>)
    requires StageNow(groups, running, cands, target, seen(now)) && Growing(seen) && SystemOk(groups, system)
    modifies AllPlans(groups)
    ensures StageNow(groups, running', cands', target', seen(now')) && target' >= target
    ensures forall p :: p in running' ==> !Done(p, seen(now)) && Stage(groups, p)
    ensures OnePerModel(running) && OnePerModel(running') && GpusOf(running) == old(GpusOf(running))
    ensures Chain(groups, running, cands, target, tot, seen, now, keepOrder, GpusHeld(AllPlans(groups)), picks,
                  running',
                  cands', target', now')
  {
    running', cands', target', now', picks :=
      NextRound(groups, running, cands, target, tot, seen, now, keepOrder, system);
  }

  /** The next round, and what its running plans held in the round before. */
  method NextWithTable(
      groups: Groups, running: seq<PlanState>, cands: seq<PlanState>, target: nat, tot: nat,
      seen: nat -> set<nat>, now: nat, keepOrder: bool, ghost system: Graph)
    returns (running': seq<PlanState>, cands': seq<PlanState>, target': nat, now': nat, table: map<PlanKey, seq<nat>>,
             ghost turn: Turn)
    requires StageNow(groups, running, cands, target, seen(now)) && Growing(seen) && SystemOk(groups, system)
    modifies AllPlans(groups)
    ensures StageNow(groups, running', cands', target', seen(now')) && target' >= target
    ensures (forall p :: p in running' ==> !Done(p, seen(now)) && Stage(groups, p)) && OnePerModel(running')
    ensures table == old(GpuTable(running)) && TableFrom(table, running, old(GpusOf(running)))
    ensures FollowsFrom(groups, running, cands, target, now, turn, tot, seen, keepOrder)
            && AtTurn(turn, running', cands', target', now')
  {
    GpuTableIs(running);
    TableOfFrom(running, GpusOf(running));
    ghost var picks;
    running', cands', target', now', picks :=
      NextKeeping(groups, running, cands, target, tot, seen, now, keepOrder, system);
    GpuTableIs(running);
    table := GpuTable(running);
    turn := Turn(running', cands', target', now', picks, GpusHeld(AllPlans(groups)));
  }

  ghost predicate FollowsFrom(
      groups: Groups, running: seq<PlanState>, cands: seq<PlanState>, target: nat, now: nat, b: Turn, tot: nat,
      seen: nat -> set<nat>, keepOrder: bool)
  {
    Chain(groups, running, cands, target, tot, seen, now, keepOrder, b.held, b.picks, b.running, b.cands, b.target,
          b.now)
  }

  /** Decide what runs next, then place it. Of the demand nothing is known beforehand: when it is
      within the machine the placement succeeds as said above. */
  method PlacedRound(
      groups: Groups, running: seq<PlanState>, cands: seq<PlanState>, target: nat, tot: nat, unit: nat,
      seen: nat -> set<nat>, now: nat, keepOrder: bool, ghost system: Graph)
    returns (running': seq<PlanState>, cands': seq<PlanState>, target': nat, now': nat, r: Adjustment,
             ghost turn: Turn)
    requires StageNow(groups, running, cands, target, seen(now))
    requires Growing(seen) && SystemOk(groups, system) && PlansFit(groups, tot, unit) && HousedNow(running, tot, unit)
    modifies AllPlans(groups)
    ensures StageNow(groups, running', cands', target', seen(now')) && target' >= target
    ensures forall p :: p in running' ==> !Done(p, seen(now))
    ensures FollowsFrom(groups, running, cands, target, now, turn, tot, seen, keepOrder)
            && AtTurn(turn, running', cands', target', now')
    ensures unit >= 1 && AsSpecified(ItemsOf(running', old(GpuTable(running))), GpusOf(running'), r, tot, unit)
    ensures DemandOf(running') <= tot ==>
              PlacedAs(running', ItemsOf(running', old(GpuTable(running))), GpusOf(running'), r, tot, unit)
  {
    ghost var gs := GpusOf(running);
    var table;
    running', cands', target', now', table, turn :=
      NextWithTable(groups, running, cands, target, tot, seen, now, keepOrder, system);
    r := PlaceStage(groups, running, running', cands', target', seen(now'), table, gs, tot, unit);
  }

  // ----- the whole run

  lemma {:induction false} GatheredHoused(list: seq<PlanState>, gs: seq<seq<nat>>, order: seq<nat>, tot: nat, unit: nat)
    requires unit >= 1 && AllHoused(PlansOf(list), gs, tot, unit) && InRange(order, |list|) && Distinct(order)
    ensures AllHoused(PlansOf(Gather(list, order)), Gather(gs, order), tot, unit)
  {
    var l, h := Gather(list, order), Gather(gs, order);
    forall i, j | 0 <= i < |h| && 0 <= j < |h| && i != j ensures Apart(h[i], h[j]) {
      assert order[i] != order[j];
    }
  }

  lemma {:induction false} GatheredDemand(list: seq<PlanState>, order: seq<nat>)
    requires InRange(order, |list|)
    ensures DemandOf(Gather(list, order)) == SumAt(Sizes(PlansOf(list)), order)
  {
    var part := Gather(list, order);
    DemandIsSum(PlansOf(list), order);
    DemandIsSum(PlansOf(part), UpTo(|part|));
    assert Gather(PlansOf(list), order) == Gather(PlansOf(part), UpTo(|part|));
  }

  /** The first stage, in the order in which it is placed. */
  lemma {:induction false} FirstSound(groups: Groups, tot: nat, unit: nat)
    requires |groups| >= 1 && GroupsOk(groups) && unit >= 1 && PlansFit(groups, tot, unit) && DemandOf(groups[0]) <= tot
    ensures InRange(StartOrder(PlansOf(groups[0]), unit), |groups[0]|)
    ensures var order := StartOrder(PlansOf(groups[0]), unit);
            && FirstRunning(groups[0], unit) == Gather(groups[0], order)
            && DemandOf(FirstRunning(groups[0], unit)) <= tot
            && AllHoused(PlansOf(FirstRunning(groups[0], unit)),
                         Gather(FirstPlacing(PlansOf(groups[0]), tot, unit), order), tot, unit)
  {
    var items := PlansOf(groups[0]);
    RoundFits(groups, groups[0], items, tot, unit);
    FirstPlacingHouses(items, tot, unit);
    StartInRange(items, unit);
    GatheredHoused(groups[0], FirstPlacing(items, tot, unit), StartOrder(items, unit), tot, unit);
    SortSum(Sizes(items), UpTo(|items|), OutranksAtStart(items, unit));
    GatheredDemand(groups[0], StartOrder(items, unit));
  }

  /** The first stage is launched and placed. */
  method StartPlaced(groups: Groups, tot: nat, unit: nat) returns (running: seq<PlanState>)
    requires GroupsOk(groups) && |groups| >= 1 && PlansFit(groups, tot, unit) && DemandOf(groups[0]) <= tot
    requires unit >= 1 && On(AllPlans(groups)) == {}
    modifies groups[0]
    ensures StageNow(groups, running, NextCands(groups, 0), 1, {})
    ensures HousedNow(running, tot, unit) && DemandOf(running) <= tot
    ensures running == FirstRunning(groups[0], unit)
  {
    FirstSound(groups, tot, unit);
    running := StartStages(groups, tot, unit);
    ghost var order := StartOrder(PlansOf(groups[0]), unit);
    GatheredGpus(groups[0], order);
  }

  lemma {:induction false} GatheredGpus(list: seq<PlanState>, order: seq<nat>)
    requires InRange(order, |list|)
    ensures GpusOf(Gather(list, order)) == Gather(GpusOf(list), order)
  {
  }

  /** How a run ends: after the last round, or in a round whose plans do not fit the machine, or in
      one in which wide plans that keep running hold every GPU. */
  datatype RunEnd = Through | DoesNotFit | NothingLeft

  /** One round of a run, and whether the run goes on. */
  method RoundOn(
      groups: Groups, running: seq<PlanState>, cands: seq<PlanState>, target: nat, tot: nat, unit: nat,
      seen: nat -> set<nat>, now: nat, keepOrder: bool, ghost system: Graph)
    returns (running': seq<PlanState>, cands': seq<PlanState>, target': nat, now': nat, end: RunEnd, ghost turn: Turn)
    requires StageNow(groups, running, cands, target, seen(now))
    requires Growing(seen) && SystemOk(groups, system) && PlansFit(groups, tot, unit) && HousedNow(running, tot, unit)
    modifies AllPlans(groups)
    ensures StageNow(groups, running', cands', target', seen(now'))
    ensures FollowsFrom(groups, running, cands, target, now, turn, tot, seen, keepOrder)
            && AtTurn(turn, running', cands', target', now')
    ensures end.Through? ==> HousedNow(running', tot, unit)
    ensures end.DoesNotFit? <==> DemandOf(running') > tot
    ensures end.NothingLeft? ==>
              forall g: nat :: g < tot ==> HeldWide(ItemsOf(running', old(GpuTable(running))), unit, g)
  {
    var r;
    running', cands', target', now', r, turn :=
      PlacedRound(groups, running, cands, target, tot, unit, seen, now, keepOrder, system);
    end := if DemandOf(running') > tot then DoesNotFit else if r.NothingToJoin? then NothingLeft else Through;
  }

  /** Placed rounds, from a first state on. */
  method RoundsOn(
      groups: Groups, start: seq<PlanState>, tot: nat, unit: nat, seen: nat -> set<nat>, rounds: nat, keepOrder: bool,
      ghost system: Graph)
    returns (running: seq<PlanState>, cands: seq<PlanState>, target: nat, now: nat, end: RunEnd,
             ghost turns: seq<Turn>)
    requires StageNow(groups, start, NextCands(groups, 0), 1, seen(0)) && SystemOk(groups, system) && Growing(seen)
    requires PlansFit(groups, tot, unit) && HousedNow(start, tot, unit) && DemandOf(start) <= tot
    modifies AllPlans(groups)
    ensures StageNow(groups, running, cands, target, seen(now))
    ensures end.Through? ==> HousedNow(running, tot, unit)
    ensures end.DoesNotFit? <==> DemandOf(running) > tot
    ensures RunSoFar(groups, start, turns, tot, seen, keepOrder)
    ensures |turns| <= rounds + 1 && (end.Through? ==> |turns| == rounds + 1)
    ensures AtTurn(turns[|turns| - 1], running, cands, target, now)
  {
    running, cands, target, now, end := start, NextCands(groups, 0), 1, 0, Through;
    turns := [Turn(running, cands, target, now, [], map[])];
    for k := 0 to rounds
      invariant StageNow(groups, running, cands, target, seen(now))
      invariant HousedNow(running, tot, unit) && DemandOf(running) <= tot && end.Through?
      invariant RunSoFar(groups, start, turns, tot, seen, keepOrder)
      invariant |turns| == k + 1 && AtTurn(turns[k], running, cands, target, now)
    {
      ghost var turn;
      running, cands, target, now, end, turn :=
        RoundOn(groups, running, cands, target, tot, unit, seen, now, keepOrder, system);
      RunMore(groups, start, turns, turn, tot, seen, keepOrder);
      turns := turns + [turn];
      if !end.Through? {
        return;
      }
    }
  }

  /** From the first stage through so many rounds: whenever models finish, the stage rules hold, and
      as long as the plans fit the machine all of them are well placed in every round. */
  method RunPlaced(
      groups: Groups, tot: nat, unit: nat, seen: nat -> set<nat>, rounds: nat, keepOrder: bool, ghost system: Graph)
    returns (running: seq<PlanState>, cands: seq<PlanState>, target: nat, now: nat, end: RunEnd,
             ghost turns: seq<Turn>)
    requires GroupsOk(groups) && |groups| >= 1 && SystemOk(groups, system) && Growing(seen)
    requires unit >= 1 && PlansFit(groups, tot, unit) && DemandOf(groups[0]) <= tot
    requires On(AllPlans(groups)) == {}
    modifies AllPlans(groups)
    ensures StageNow(groups, running, cands, target, seen(now))
    ensures end.Through? ==> HousedNow(running, tot, unit)
    ensures end.DoesNotFit? <==> DemandOf(running) > tot
    ensures RunSoFar(groups, FirstRunning(groups[0], unit), turns, tot, seen, keepOrder)
    ensures |turns| <= rounds + 1 && (end.Through? ==> |turns| == rounds + 1)
    ensures AtTurn(turns[|turns| - 1], running, cands, target, now)
  {
    var start := StartPlaced(groups, tot, unit);
    MoreFinished(groups, start, NextCands(groups, 0), 1, On(AllPlans(groups)), {}, seen(0));
    running, cands, target, now, end, turns := RoundsOn(groups, start, tot, unit, seen, rounds, keepOrder, system);
  }
}
