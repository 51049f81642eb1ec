/** The state of the execution plans, and the two places where GPUs are assigned to them. */
module PlanStates {
  import opened Lists
  import opened StableSort
  import opened GpuUnits
  import opened Placement
  import opened Relocation
  import opened RelocationSound
  import opened PlacementStays
  import opened FirstAssignment

  /** What identifies a plan of a model. */
  datatype PlanKey = PlanKey(model: nat, width: nat, copies: nat, other: nat)

  function KeyOf(p: Plan): PlanKey {
    PlanKey(p.model, p.width, p.copies, p.other)
  }

  class PlanState {
    const plan: Plan
    const stage: nat
    const last: bool
    const needPrepare: bool
    var gpus: seq<nat>
    var launched: bool

    constructor (plan: Plan, stage: nat, last: bool, needPrepare: bool)
      ensures this.plan == plan && this.stage == stage && this.last == last && this.needPrepare == needPrepare
      ensures gpus == [] && !launched
    {
      this.plan, this.stage, this.last, this.needPrepare := plan, stage, last, needPrepare;
      gpus, launched := [], false;
    }
  }

  ghost predicate Different(states: seq<PlanState>) {
    forall j, k :: 0 <= j < k < |states| ==> states[j] != states[k]
  }

  /** The running plans, each with the GPUs it held in the last round if it was running then. */
  function ItemsOf(states: seq<PlanState>, before: map<PlanKey, seq<nat>>): (items: seq<Item>)
    ensures |items| == |states|
    ensures forall i :: 0 <= i < |items| ==>
              items[i] == Item(states[i].plan,
                               if KeyOf(states[i].plan) in before then Kept(before[KeyOf(states[i].plan)]) else Fresh)
  {
    seq(|states|, i requires 0 <= i < |states| =>
      Item(states[i].plan, if KeyOf(states[i].plan) in before then Kept(before[KeyOf(states[i].plan)]) else Fresh))
  }

  // ----- the first stage

  lemma {:induction false} ReassignSplit(items: seq<Item>, k: nat, cand: seq<nat>, unit: nat)
    requires unit >= 1 && k < |items|
    ensures var ps, rest := Reassign(items, cand, unit), RestAfter(items, cand, unit, k);
            && ps[k] == Place(items[k], rest, unit)
            && RestAfter(items, cand, unit, k + 1) == Place(items[k], rest, unit).rest
    decreases k
  {
    if k > 0 {
      ReassignSplit(items[1..], k - 1, Place(items[0], cand, unit).rest, unit);
    }
  }

  /** What is left after the first k plans. */
  function RestAfter(items: seq<Item>, cand: seq<nat>, unit: nat, k: nat): seq<nat>
    requires unit >= 1 && k <= |items|
    decreases k
  {
    if k == 0 then cand else RestAfter(items[1..], Place(items[0], cand, unit).rest, unit, k - 1)
  }

  /** Hand out the GPUs to the plans of the first stage, the widest first, and launch them. */
  method AssignFirst(states: seq<PlanState>, tot: nat, unit: nat)
    requires unit >= 1 && Different(states)
    modifies states
    ensures forall i :: 0 <= i < |states| ==>
              states[i].gpus == FirstPlacing(ItemsOf(states, map[]), tot, unit)[i] && states[i].launched
  {
    ghost var items := ItemsOf(states, map[]);
    StartInRange(items, unit);
    var order := StartOrder(ItemsOf(states, map[]), unit);
    ghost var r := Gather(items, order);
    ghost var ps := Reassign(r, UpTo(tot), unit);
    var available := UpTo(tot);
    for k := 0 to |order|
      invariant available == RestAfter(r, UpTo(tot), unit, k)
      invariant forall j :: 0 <= j < k ==> states[order[j]].gpus == ps[j].gpus && states[order[j]].launched
    {
      var state := states[order[k]];
      ReassignSplit(r, k, UpTo(tot), unit);
      state.gpus := Take(available, state.plan.Size());
      available := Drop(available, state.plan.Size());
      state.launched := true;
      assert forall j :: 0 <= j < k ==> states[order[j]] != state;
    }
    forall i: nat | i < |states|
      ensures states[i].gpus == FirstPlacing(items, tot, unit)[i] && states[i].launched
    {
      assert i in order;
      var k := WrittenAt(Base(items), order, ps, i);
    }
  }

  // ----- every later round

  /** The GPUs of one running plan in the survey. */
  method SurveyOne(state: PlanState, it: Item, costs: array<int>, occupied: array<bool>, unit: nat) returns (ok: bool)
    requires unit >= 1 && it.plan == state.plan && forall g :: g in HeldGpus(it) ==> g < occupied.Length
    modifies state`gpus, costs, occupied
    ensures ok <==> (KeptWide(it, unit) ==> FillsUnits(HeldGpus(it), unit))
    ensures state.gpus == if it.held.Kept? then it.held.gpus else old(state.gpus)
    ensures ok ==> forall u :: 0 <= u < costs.Length ==> costs[u] == CostStep(old(costs[u]), it, unit, u)
    ensures forall g :: 0 <= g < occupied.Length ==> occupied[g] == (old(occupied[g]) || g in HeldGpus(it))
  {
    ok := true;
    if it.held.Kept? {
      state.gpus := it.held.gpus;
      var held := Take(state.gpus, state.plan.Size());
      Mark(occupied, held);
      if state.plan.width >= unit {
        if exists g :: g in held && CountIn(held, g / unit, unit) != unit {
          return false;
        }
        Charge(costs, held, unit, true, 0);
      } else {
        Charge(costs, held, unit, false, state.plan.load);
      }
    }
  }

  ghost function GpusOf(states: seq<PlanState>): (gs: seq<seq<nat>>)
    reads states
    ensures |gs| == |states| && forall i :: 0 <= i < |gs| ==> gs[i] == states[i].gpus
  {
    seq(|states|, i requires 0 <= i < |states| reads states => states[i].gpus)
  }

  ghost predicate Restored(gs: seq<seq<nat>>, items: seq<Item>, order: seq<nat>)
    requires InRange(order, |gs|) && |items| == |gs|
  {
    forall j :: 0 <= j < |order| && items[order[j]].held.Kept? ==> gs[order[j]] == items[order[j]].held.gpus
  }

  lemma {:induction false} RestoredStep(gs: seq<seq<nat>>, items: seq<Item>, order: seq<nat>, k: nat, g: seq<nat>)
    requires InRange(order, |gs|) && |items| == |gs| && Distinct(order) && k < |order|
             && Restored(gs, items, order[..k])
    requires items[order[k]].held.Kept? ==> g == items[order[k]].held.gpus
    ensures Restored(gs[order[k] := g], items, order[..k + 1])
  {
    var a, b := order[..k], order[..k + 1];
    forall j | 0 <= j < k ensures a[j] == b[j] {
    }
  }

  ghost predicate SurveyedUnits(costs: seq<int>, occupied: seq<bool>, items: seq<Item>, order: seq<nat>, unit: nat)
    requires InRange(order, |items|) && unit >= 1
  {
    && (forall u :: 0 <= u < |costs| ==> costs[u] == CostOf(items, order, unit, u))
    && (forall g :: 0 <= g < |occupied| ==> occupied[g] == (g in Occupied(items, order)))
  }

  ghost predicate AllFill(items: seq<Item>, order: seq<nat>, unit: nat)
    requires InRange(order, |items|) && unit >= 1
  {
    forall j :: 0 <= j < |order| && KeptWide(items[order[j]], unit) ==> FillsUnits(HeldGpus(items[order[j]]), unit)
  }

  lemma {:induction false} AllFillStep(items: seq<Item>, order: seq<nat>, k: nat, unit: nat)
    requires InRange(order, |items|) && unit >= 1 && k < |order| && AllFill(items, order[..k], unit)
    ensures AllFill(items, order[..k + 1], unit)
            <==> (KeptWide(items[order[k]], unit) ==> FillsUnits(HeldGpus(items[order[k]]), unit))
    ensures AllFill(items, order, unit) ==> AllFill(items, order[..k + 1], unit)
  {
    var a, b := order[..k], order[..k + 1];
    assert forall j :: 0 <= j < k ==> a[j] == b[j];
    assert b[k] == order[k];
  }

  lemma {:induction false} SurveyedStep(
      costs: seq<int>, occupied: seq<bool>, costs': seq<int>, occupied': seq<bool>, items: seq<Item>, order: seq<nat>,
      unit: nat)
    requires InRange(order, |items|) && unit >= 1 && order != []
    requires SurveyedUnits(costs, occupied, items, order[..|order| - 1], unit)
    requires |costs'| == |costs| && |occupied'| == |occupied|
    requires forall u :: 0 <= u < |costs| ==> costs'[u] == CostStep(costs[u], items[order[|order| - 1]], unit, u)
    requires forall g :: 0 <= g < |occupied| ==>
               occupied'[g] == (occupied[g] || g in HeldGpus(items[order[|order| - 1]]))
    ensures SurveyedUnits(costs', occupied', items, order, unit)
  {
  }

  /** After the survey of some plans. */
  ghost predicate Surveyed(
      gs: seq<seq<nat>>, costs: seq<int>, occupied: seq<bool>, todo: seq<nat>, items: seq<Item>, order: seq<nat>,
      unit: nat)
    requires InRange(order, |items|) && |items| == |gs| && unit >= 1
  {
    && AllFill(items, order, unit) && Restored(gs, items, order)
    && SurveyedUnits(costs, occupied, items, order, unit)
    && todo == ToPlace(items, order, unit)
  }

  lemma {:induction false} SurveyMore(
      gs: seq<seq<nat>>, costs: seq<int>, occupied: seq<bool>, costs': seq<int>, occupied': seq<bool>,
      todo: seq<nat>, items: seq<Item>, order: seq<nat>, k: nat, g: seq<nat>, unit: nat)
    requires InRange(order, |items|) && |items| == |gs| && unit >= 1 && Distinct(order) && k < |order|
    requires Surveyed(gs, costs, occupied, todo, items, order[..k], unit)
    requires KeptWide(items[order[k]], unit) ==> FillsUnits(HeldGpus(items[order[k]]), unit)
    requires items[order[k]].held.Kept? ==> g == items[order[k]].held.gpus
    requires |costs'| == |costs| && |occupied'| == |occupied|
    requires forall u :: 0 <= u < |costs| ==> costs'[u] == CostStep(costs[u], items[order[k]], unit, u)
    requires forall g :: 0 <= g < |occupied| ==> occupied'[g] == (occupied[g] || g in HeldGpus(items[order[k]]))
    ensures Surveyed(gs[order[k] := g], costs', occupied',
                     if KeptWide(items[order[k]], unit) then todo else todo + [order[k]], items, order[..k + 1], unit)
  {
    var o := order[..k + 1];
    assert o[..|o| - 1] == order[..k];
    AllFillStep(items, order, k, unit);
    RestoredStep(gs, items, order, k, g);
    SurveyedStep(costs, occupied, costs', occupied', items, o, unit);
  }

  /** One plan in the survey: restore what it held, note the GPUs in use and the cost of clearing
      units, and put it on the list if it needs GPUs. */
  method SurveyNext(
      states: seq<PlanState>, items: seq<Item>, order: seq<nat>, k: nat, costs: array<int>, occupied: array<bool>,
      todo: seq<nat>, unit: nat)
    returns (ok: bool, todo': seq<nat>)
    requires unit >= 1 && Different(states) && InRange(order, |states|) && Distinct(order) && k < |order|
    requires |items| == |states| && items[order[k]].plan == states[order[k]].plan
    requires forall g :: g in HeldGpus(items[order[k]]) ==> g < occupied.Length
    requires Surveyed(GpusOf(states), costs[..], occupied[..], todo, items, order[..k], unit)
    modifies {states[order[k]]}`gpus, costs, occupied
    ensures ok ==> Surveyed(GpusOf(states), costs[..], occupied[..], todo', items, order[..k + 1], unit)
    ensures !ok ==> !AllFill(items, order, unit)
  {
    ghost var costs0, occupied0, gpus0 := costs[..], occupied[..], GpusOf(states);
    todo' := todo;
    ok := SurveyOne(states[order[k]], items[order[k]], costs, occupied, unit);
    AllFillStep(items, order, k, unit);
    if ok {
      SurveyMore(gpus0, costs0, occupied0, costs[..], occupied[..], todo, items, order, k, states[order[k]].gpus, unit);
      assert GpusOf(states) == gpus0[order[k] := states[order[k]].gpus];
      if !KeptWide(items[order[k]], unit) {
        todo' := todo + [order[k]];
      }
    }
  }

  /** One pass over the running plans. */
  method Survey(states: seq<PlanState>, items: seq<Item>, order: seq<nat>, tot: nat, unit: nat)
    returns (ok: bool, costs: array<int>, occupied: array<bool>, todo: seq<nat>)
    requires unit >= 1 && Different(states) && InRange(order, |states|) && Distinct(order)
    requires |items| == |states| && forall i :: 0 <= i < |items| ==> items[i].plan == states[i].plan
    requires forall i, g :: 0 <= i < |items| && g in HeldGpus(items[i]) ==> g < tot
    modifies states`gpus
    ensures fresh(costs) && costs.Length == tot / unit && fresh(occupied) && occupied.Length == tot
    ensures ok <==> AllFill(items, order, unit)
    ensures ok ==> Surveyed(GpusOf(states), costs[..], occupied[..], todo, items, order, unit)
  {
    costs := new int[tot / unit](_ => 0);
    occupied := new bool[tot](_ => false);
    todo, ok := [], true;
    for k := 0 to |order|
      invariant fresh(costs) && fresh(occupied)
      invariant Surveyed(GpusOf(states), costs[..], occupied[..], todo, items, order[..k], unit)
    {
      ok, todo := SurveyNext(states, items, order, k, costs, occupied, todo, unit);
      if !ok {
        return;
      }
    }
    assert order[..|order|] == order;
  }

  method Mark(occupied: array<bool>, gpus: seq<nat>)
    requires forall g :: g in gpus ==> g < occupied.Length
    modifies occupied
    ensures forall g :: 0 <= g < occupied.Length ==> occupied[g] == (old(occupied[g]) || g in gpus)
  {
    for k := 0 to |gpus|
      invariant forall g :: 0 <= g < occupied.Length ==> occupied[g] == (old(occupied[g]) || g in gpus[..k])
    {
      assert gpus[..k + 1] == gpus[..k] + [gpus[k]];
      assert gpus[k] in gpus;
      occupied[gpus[k]] := true;
    }
    assert gpus[..|gpus|] == gpus;
  }

  /** Every unit that `gpus` touches becomes too dear, or dearer by `load`. */
  method Charge(costs: array<int>, gpus: seq<nat>, unit: nat, dear: bool, load: nat)
    requires unit >= 1
    modifies costs
    ensures forall u :: 0 <= u < costs.Length ==>
              costs[u] == if !Touches(gpus, u, unit) then old(costs[u])
                          else if dear then TOO_DEAR else old(costs[u]) + load
  {
    for u := 0 to costs.Length
      invariant forall v :: 0 <= v < u ==>
                  costs[v] == if !Touches(gpus, v, unit) then old(costs[v])
                              else if dear then TOO_DEAR else old(costs[v]) + load
      invariant forall v :: u <= v < costs.Length ==> costs[v] == old(costs[v])
    {
      if Touches(gpus, u, unit) {
        costs[u] := if dear then TOO_DEAR else costs[u] + load;
      }
    }
  }

  // ----- placing

  /** The first plans of the order have been placed. */
  ghost predicate PlacedUpTo(gs: seq<seq<nat>>, base: seq<seq<nat>>, order: seq<nat>, ps: seq<Placing>, k: nat)
    requires InRange(order, |gs|) && |ps| == |order| && k <= |order| && |base| == |gs|
  {
    && (forall j :: 0 <= j < k ==> gs[order[j]] == ps[j].gpus)
    && (forall i :: 0 <= i < |gs| && i !in order[..k] ==> gs[i] == base[i])
  }

  lemma {:induction false} PlacedStep(gs: seq<seq<nat>>, base: seq<seq<nat>>, order: seq<nat>, ps: seq<Placing>, k: nat)
    requires InRange(order, |gs|) && |ps| == |order| && k < |order| && |base| == |gs| && Distinct(order)
    requires PlacedUpTo(gs, base, order, ps, k)
    ensures PlacedUpTo(gs[order[k] := ps[k].gpus], base, order, ps, k + 1)
    ensures gs[order[k]] == base[order[k]]
  {
    var a, b := order[..k], order[..k + 1];
    assert b == a + [order[k]];
  }

  lemma {:induction false} MoversStep(order: seq<nat>, ps: seq<Placing>, k: nat)
    requires |ps| == |order| && k < |order|
    ensures Movers(order[..k + 1], ps[..k + 1])
            == Movers(order[..k], ps[..k]) + (if ps[k].moved then [order[k]] else [])
  {
    assert order[..k + 1][..k] == order[..k] && ps[..k + 1][..k] == ps[..k];
  }

  /** One plan: stay if it may, else take the next GPUs. */
  method PlaceOne(state: PlanState, it: Item, cand: seq<nat>, unit: nat) returns (rest: seq<nat>, moved: bool)
    requires unit >= 1 && it.plan == state.plan
    requires it.held.Kept? ==> state.gpus == it.held.gpus && |it.held.gpus| == it.plan.Size()
    modifies state`gpus
    ensures Placing(state.gpus, rest, moved) == Place(it, cand, unit)
  {
    var n := state.plan.Size();
    if state.plan.width < unit && it.held.Kept? {
      if CanKeep(it, cand, unit) {
        return Without(cand, Take(state.gpus, n)), false;
      }
    }
    state.gpus := Take(cand, n);
    return Drop(cand, n), it.held.Kept?;
  }

  ghost predicate SameLength(items: seq<Item>) {
    forall i :: 0 <= i < |items| && items[i].held.Kept? ==> |items[i].held.gpus| == items[i].plan.Size()
  }

  method PlaceAll(
      states: seq<PlanState>, items: seq<Item>, order: seq<nat>, cand: seq<nat>, unit: nat) returns (movers: seq<nat>)
    requires unit >= 1 && Different(states) && InRange(order, |states|) && Distinct(order) && SameLength(items)
    requires |items| == |states| && forall i :: 0 <= i < |items| ==> items[i].plan == states[i].plan
    requires forall i :: 0 <= i < |items| && items[i].held.Kept? ==> GpusOf(states)[i] == items[i].held.gpus
    modifies states`gpus
    ensures PlacedUpTo(GpusOf(states), old(GpusOf(states)), order, Reassign(Gather(items, order), cand, unit), |order|)
    ensures movers == Movers(order, Reassign(Gather(items, order), cand, unit))
  {
    ghost var r, base := Gather(items, order), GpusOf(states);
    ghost var ps := Reassign(r, cand, unit);
    var rest := cand;
    movers := [];
    for k := 0 to |order|
      invariant rest == RestAfter(r, cand, unit, k)
      invariant PlacedUpTo(GpusOf(states), base, order, ps, k)
      invariant movers == Movers(order[..k], ps[..k])
    {
      ghost var gs := GpusOf(states);
      ReassignSplit(r, k, cand, unit);
      PlacedStep(gs, base, order, ps, k);
      MoversStep(order, ps, k);
      var moved;
      rest, moved := PlaceOne(states[order[k]], items[order[k]], rest, unit);
      assert GpusOf(states) == gs[order[k] := ps[k].gpus];
      if moved {
        movers := movers + [order[k]];
      }
    }
    assert order[..|order|] == order && ps[..|order|] == ps;
  }

  function Busy(occupied: seq<bool>): set<nat> {
    set g: nat | g < |occupied| && occupied[g]
  }

  /** Joining the units to give away, in order. */
  method Join(us: seq<nat>, unit: nat, busy: set<nat>) returns (cand: seq<nat>)
    ensures cand == Flat(Chunks(us, unit, busy))
  {
    cand := [];
    for k := 0 to |us|
      invariant Flat(Chunks(us, unit, busy)) == cand + Flat(Chunks(us[k..], unit, busy))
    {
      var c := Arranged(us[k], unit, busy);
      assert us[k..][1..] == us[k + 1..];
      assert Chunks(us[k..], unit, busy)[1..] == Chunks(us[k + 1..], unit, busy);
      cand := cand + c;
    }
  }

  datatype Adjustment = Adjusted(movers: seq<nat>) | AssertionFailed | NothingToJoin

  ghost predicate Adjustable(items: seq<Item>, tot: nat, unit: nat) {
    && unit >= 1 && SameLength(items)
    && forall i, g :: 0 <= i < |items| && g in HeldGpus(items[i]) ==> g < tot
  }

  lemma {:induction false} PlacedIsWritten(
      gs: seq<seq<nat>>, base: seq<seq<nat>>, items: seq<Item>, order: seq<nat>, ps: seq<Placing>)
    requires InRange(order, |gs|) && |ps| == |order| && |base| == |gs| == |items| && Distinct(order)
    requires PlacedUpTo(gs, base, order, ps, |order|)
    requires forall i :: 0 <= i < |items| && i !in order ==> base[i] == Base(items)[i]
    ensures gs == WriteBack(Base(items), order, ps)
  {
    assert order[..|order|] == order;
    forall i: nat | i < |gs| ensures gs[i] == WriteBack(Base(items), order, ps)[i] {
      if i in order {
        var k: nat :| k < |order| && order[k] == i;
        WriteBackAt(Base(items), order, ps, k);
      } else {
        WriteBackElse(Base(items), order, ps, i);
      }
    }
  }

  /** The survey of all plans gives the costs and the occupied GPUs of the specification. */
  lemma {:induction false} SurveyComplete(
      gs: seq<seq<nat>>, costs: seq<int>, occupied: seq<bool>, todo: seq<nat>, items: seq<Item>, tot: nat, unit: nat)
    requires Adjustable(items, tot, unit) && |gs| == |items| && |costs| == tot / unit && |occupied| == tot
    requires InRange(ByWidth(items), |items|) && Surveyed(gs, costs, occupied, todo, items, ByWidth(items), unit)
    ensures costs == Costs(items, unit, tot / unit) && Busy(occupied) == Occupied(items, ByWidth(items))
    ensures forall i :: 0 <= i < |items| && items[i].held.Kept? ==> gs[i] == items[i].held.gpus
  {
    SortMembers(items);
    forall g | g in Occupied(items, ByWidth(items)) ensures g < tot {
      OccupiedBound(items, ByWidth(items), tot, unit, g);
    }
    forall i: nat | i < |items| && items[i].held.Kept? ensures gs[i] == items[i].held.gpus {
      assert i in ByWidth(items);
    }
  }

  lemma {:induction false} OccupiedBound(items: seq<Item>, order: seq<nat>, tot: nat, unit: nat, g: nat)
    requires Adjustable(items, tot, unit) && InRange(order, |items|) && g in Occupied(items, order)
    ensures g < tot
    decreases |order|
  {
    if g !in HeldGpus(items[order[|order| - 1]]) {
      OccupiedBound(items, order[..|order| - 1], tot, unit, g);
    }
  }

  lemma {:induction false} AllFillIff(items: seq<Item>, unit: nat)
    requires unit >= 1
    ensures InRange(ByWidth(items), |items|) && (AllFill(items, ByWidth(items), unit) <==> StayersFill(items, unit))
  {
    SortMembers(items);
    var o := ByWidth(items);
    if AllFill(items, o, unit) {
      forall i: nat | i < |items| && KeptWide(items[i], unit) ensures FillsUnits(HeldGpus(items[i]), unit) {
        assert i in o;
      }
    }
  }

  /** After the survey: order the units, join them, and hand out what they hold. */
  method ShareOut(
      states: seq<PlanState>, items: seq<Item>, costs: seq<int>, busy: set<nat>, todo: seq<nat>, tot: nat, unit: nat)
    returns (r: Adjustment)
    requires Different(states) && Adjustable(items, tot, unit) && StayersFill(items, unit)
    requires |items| == |states| && forall i :: 0 <= i < |items| ==> items[i].plan == states[i].plan
    requires InRange(ByWidth(items), |items|)
    requires costs == Costs(items, unit, tot / unit) && busy == Occupied(items, ByWidth(items))
    requires todo == ToPlace(items, ByWidth(items), unit)
    requires forall i :: 0 <= i < |items| && items[i].held.Kept? ==> GpusOf(states)[i] == items[i].held.gpus
    modifies states`gpus
    ensures var spec := Relocate(items, tot, unit);
            && !r.AssertionFailed? && (r.NothingToJoin? <==> spec == NoUnits)
            && (r.Adjusted? ==> spec == Placed(GpusOf(states), r.movers))
  {
    var us := UnitOrder(costs);
    if us == [] {
      return NothingToJoin;
    }
    PlacingInRange(items, unit);
    ghost var base := GpusOf(states);
    var cand := Join(us, unit, busy);
    var order := SortBy(todo, Outranks(items, unit));
    var movers := PlaceAll(states, items, order, cand, unit);
    PlacedIsWritten(GpusOf(states), base, items, order, Reassign(Gather(items, order), cand, unit));
    return Adjusted(movers);
  }

  /** The GPUs of all plans for the next round. The two failures are those of the specification: if
      the running plans fit the machine and the wide ones among them were placed well, the assertion
      holds and all of them are placed well afterwards. */
  method AdjustGpus(states: seq<PlanState>, before: map<PlanKey, seq<nat>>, tot: nat, unit: nat) returns (r: Adjustment)
    requires Different(states) && Adjustable(ItemsOf(states, before), tot, unit)
    modifies states`gpus
    ensures var spec := Relocate(ItemsOf(states, before), tot, unit);
            && (r.AssertionFailed? <==> spec == UnitBroken) && (r.NothingToJoin? <==> spec == NoUnits)
            && (r.Adjusted? ==> spec == Placed(GpusOf(states), r.movers))
    ensures Relocatable(ItemsOf(states, before), tot, unit) ==>
              !r.AssertionFailed? && (r.Adjusted? ==> AllHoused(ItemsOf(states, before), GpusOf(states), tot, unit))
    ensures r.Adjusted? ==>
              StaysExactly(ItemsOf(states, before), PlacingOrder(ItemsOf(states, before), unit),
                           Candidates(ItemsOf(states, before), tot, unit), GpusOf(states), r.movers, unit)
    ensures r.Adjusted? && Relocatable(ItemsOf(states, before), tot, unit) ==>
              AllWell(ItemsOf(states, before), tot, unit) ==>
                r.movers == [] && GpusOf(states) == Base(ItemsOf(states, before))
  {
    var items := ItemsOf(states, before);
    SortMembers(items);
    AllFillIff(items, unit);
    var ok, costs, occupied, todo := Survey(states, items, ByWidth(items), tot, unit);
    if ok {
      SurveyComplete(GpusOf(states), costs[..], occupied[..], todo, items, tot, unit);
      r := ShareOut(states, items, costs[..], Busy(occupied[..]), todo, tot, unit);
    } else {
      r := AssertionFailed;
    }
    if r.Adjusted? {
      RelocationStays(items, tot, unit);
    }
    if Relocatable(items, tot, unit) {
      NoUnitsIff(items, tot, unit);
      if r.Adjusted? {
        RelocationHouses(items, tot, unit);
        if AllWell(items, tot, unit) {
          NobodyMoves(items, tot, unit);
        }
      }
    }
  }
}
