/** Placement over a whole run: a first assignment and any number of relocations. */
module PlacementRuns {
  import opened Lists
  import opened Divisibility
  import opened Placement
  import opened Relocation
  import opened RelocationSound
  import opened FirstAssignment
  import opened PlanStates

  predicate PowerOfTwo(n: nat) {
    n == 1 || (n >= 2 && n % 2 == 0 && PowerOfTwo(n / 2))
  }

  lemma {:induction false} PowersDivide(a: nat, b: nat)
    requires PowerOfTwo(a) && PowerOfTwo(b) && a <= b
    ensures Divides(a, b)
    decreases b
  {
    if a == b {
      MultipleDivides(1, a);
    } else if a == 1 {
    } else {
      HalfSmaller(a, b);
      PowersDivide(a / 2, b / 2);
      var q := (b / 2) / (a / 2);
      assert b / 2 == q * (a / 2);
      assert b == q * a;
      MultipleDivides(q, a);
    }
  }

  lemma {:induction false} HalfSmaller(a: nat, b: nat)
    requires a < b
    ensures a / 2 <= b / 2
  {
  }

  /** With worker counts and unit powers of two, every plan fits the units and the widths chain. */
  lemma {:induction false} PowersFit(items: seq<Item>, unit: nat)
    requires PowerOfTwo(unit) && forall i :: 0 <= i < |items| ==>
               PowerOfTwo(items[i].plan.width) && items[i].plan.copies >= 1
    ensures WidthsChain(items) && forall i :: 0 <= i < |items| ==> PlanOk(items[i].plan, unit)
  {
    forall i | 0 <= i < |items| ensures PlanOk(items[i].plan, unit) {
      var w := items[i].plan.width;
      if w >= unit {
        PowersDivide(unit, w);
      } else {
        PowersDivide(w, unit);
      }
    }
    forall i, j | 0 <= i < |items| && 0 <= j < |items| && 1 <= items[i].plan.width <= items[j].plan.width
      ensures Divides(items[i].plan.width, items[j].plan.width)
    {
      PowersDivide(items[i].plan.width, items[j].plan.width);
    }
  }

  /** One round's plans: those that keep running hold what the last round gave to a plan with the
      same key, and no two hold the same plan's GPUs. */
  ghost predicate Follows(items: seq<Item>, gs: seq<seq<nat>>, next: seq<Item>, src: seq<nat>) {
    && |gs| == |items| && |src| == |next|
    && (forall i :: 0 <= i < |next| && next[i].held.Kept? ==>
          src[i] < |items| && KeyOf(next[i].plan) == KeyOf(items[src[i]].plan) && next[i].held.gpus == gs[src[i]])
    && (forall i, j :: 0 <= i < |next| && 0 <= j < |next| && i != j && next[i].held.Kept? && next[j].held.Kept?
          ==> src[i] != src[j])
  }

  /** The plans of one round as such: fitting widths, and together not too large. */
  ghost predicate FitsMachine(items: seq<Item>, tot: nat, unit: nat) {
    && unit >= 1 && Divides(unit, tot) && WidthsChain(items)
    && Total(Sizes(items)) <= tot && Total(Loads(items)) < TOO_DEAR
    && forall i :: 0 <= i < |items| ==> PlanOk(items[i].plan, unit)
  }

  lemma {:induction false} FollowsAdjustable(
      items: seq<Item>, gs: seq<seq<nat>>, next: seq<Item>, src: seq<nat>, tot: nat, unit: nat)
    requires unit >= 1 && AllHoused(items, gs, tot, unit) && Follows(items, gs, next, src)
    ensures Adjustable(next, tot, unit)
    ensures forall i :: 0 <= i < |next| && next[i].held.Kept? ==>
              Housed(next[i].held.gpus, next[i].plan, unit) && HeldGpus(next[i]) == next[i].held.gpus
  {
    forall i: nat | i < |next| && next[i].held.Kept?
      ensures Housed(next[i].held.gpus, next[i].plan, unit) && HeldGpus(next[i]) == next[i].held.gpus
      ensures forall g :: g in HeldGpus(next[i]) ==> g < tot
    {
      var p, q := next[i].plan, items[src[i]].plan;
      assert p.width == q.width && p.copies == q.copies;
      assert Housed(gs[src[i]], q, unit);
    }
  }

  /** Well placed plans can be relocated in the next round. */
  lemma {:induction false} NextRelocatable(
      items: seq<Item>, gs: seq<seq<nat>>, next: seq<Item>, src: seq<nat>, tot: nat, unit: nat)
    requires unit >= 1 && AllHoused(items, gs, tot, unit) && Follows(items, gs, next, src)
             && FitsMachine(next, tot, unit)
    ensures Relocatable(next, tot, unit) && Adjustable(next, tot, unit)
  {
    FollowsAdjustable(items, gs, next, src, tot, unit);
  }

  /** When a plan of the last round has stopped, its GPUs are free and the reassignment succeeds. */
  lemma {:induction false} StoppedLeavesRoom(
      items: seq<Item>, gs: seq<seq<nat>>, next: seq<Item>, src: seq<nat>, tot: nat, unit: nat, j: nat)
    requires unit >= 1 && AllHoused(items, gs, tot, unit) && Follows(items, gs, next, src)
             && FitsMachine(next, tot, unit)
    requires j < |items| && items[j].plan.Size() >= 1
    requires forall i :: 0 <= i < |next| && next[i].held.Kept? ==> src[i] != j
    ensures Relocate(next, tot, unit).Placed?
  {
    NextRelocatable(items, gs, next, src, tot, unit);
    NoUnitsIff(next, tot, unit);
    var g := gs[j][0];
    assert g in gs[j] && g < tot;
    forall i: nat | i < |next| && KeptWide(next[i], unit) ensures g !in HeldGpus(next[i]) {
      assert Apart(gs[j], gs[src[i]]);
    }
    assert !HeldWide(next, unit, g);
  }

  /** A run: the plans of each round, and where each kept plan was in the round before. */
  datatype Round = Round(items: seq<Item>, src: seq<nat>)

  /** The assignment after all rounds; a failed relocation ends the run. */
  function RunFrom(gs: seq<seq<nat>>, rounds: seq<Round>, tot: nat, unit: nat): Outcome
    requires unit >= 1
    decreases |rounds|
  {
    if rounds == [] then Outcome.Placed(gs, [])
    else
      var o := Relocate(rounds[0].items, tot, unit);
      if o.Placed? then RunFrom(o.gpus, rounds[1..], tot, unit) else o
  }

  ghost predicate RunOk(items: seq<Item>, gs: seq<seq<nat>>, rounds: seq<Round>, tot: nat, unit: nat)
    requires unit >= 1
    decreases |rounds|
  {
    rounds == [] ||
    (&& Follows(items, gs, rounds[0].items, rounds[0].src) && FitsMachine(rounds[0].items, tot, unit)
     && var o := Relocate(rounds[0].items, tot, unit);
        o.Placed? ==> RunOk(rounds[0].items, o.gpus, rounds[1..], tot, unit))
  }

  /** The plans of the last round. */
  function LastItems(items: seq<Item>, rounds: seq<Round>): seq<Item>
    decreases |rounds|
  {
    if rounds == [] then items else LastItems(rounds[0].items, rounds[1..])
  }

  ghost predicate EndsWell(items: seq<Item>, o: Outcome, tot: nat, unit: nat)
    requires unit >= 1
  {
    o != UnitBroken && (o.Placed? ==> AllHoused(items, o.gpus, tot, unit))
  }

  lemma {:induction false} RoundHouses(items: seq<Item>, gs: seq<seq<nat>>, r: Round, tot: nat, unit: nat)
    requires unit >= 1 && AllHoused(items, gs, tot, unit)
    requires Follows(items, gs, r.items, r.src) && FitsMachine(r.items, tot, unit)
    ensures EndsWell(r.items, Relocate(r.items, tot, unit), tot, unit)
  {
    NextRelocatable(items, gs, r.items, r.src, tot, unit);
    NoUnitsIff(r.items, tot, unit);
    if Relocate(r.items, tot, unit).Placed? {
      RelocationHouses(r.items, tot, unit);
    }
  }

  /** In every round of every run all plans are well placed and the assertion never fails. */
  lemma {:induction false} RunHouses(items: seq<Item>, gs: seq<seq<nat>>, rounds: seq<Round>, tot: nat, unit: nat)
    requires unit >= 1 && AllHoused(items, gs, tot, unit) && RunOk(items, gs, rounds, tot, unit)
    ensures RunFrom(gs, rounds, tot, unit) != UnitBroken
    ensures RunFrom(gs, rounds, tot, unit).Placed? ==>
              AllHoused(LastItems(items, rounds), RunFrom(gs, rounds, tot, unit).gpus, tot, unit)
    decreases |rounds|
  {
    if rounds != [] {
      RoundHouses(items, gs, rounds[0], tot, unit);
      var o := Relocate(rounds[0].items, tot, unit);
      if o.Placed? {
        RunHouses(rounds[0].items, o.gpus, rounds[1..], tot, unit);
      }
    }
  }

  /** The same from the start of the run. */
  lemma {:induction false} RunFromStartHouses(items: seq<Item>, rounds: seq<Round>, tot: nat, unit: nat)
    requires Startable(items, tot, unit) && RunOk(items, FirstPlacing(items, tot, unit), rounds, tot, unit)
    ensures EndsWell(LastItems(items, rounds), RunFrom(FirstPlacing(items, tot, unit), rounds, tot, unit), tot, unit)
  {
    FirstPlacingHouses(items, tot, unit);
    RunHouses(items, FirstPlacing(items, tot, unit), rounds, tot, unit);
  }

  // ----- a run that fails

  // One plan over the whole machine of two connected GPUs.
  const WHOLE: Plan := Plan(0, 2, 1, 0, {}, 0)

  lemma {:induction false} WholeFits(held: Held)
    ensures FitsMachine([Item(WHOLE, held)], 2, 2) && WHOLE.Size() == 2
  {
    var items := [Item(WHOLE, held)];
    assert PowerOfTwo(1) && PowerOfTwo(2);
    PowersFit(items, 2);
    MultipleDivides(1, 2);
    assert UpTo(1)[..0] == [] && SumAt(Sizes(items), []) == 0 && SumAt(Loads(items), []) == 0;
    assert Total(Sizes(items)) == 2 && Total(Loads(items)) == 0;
  }

  /** A round in which nothing changes fails when the one wide plan goes on: no unit is left to join. */
  lemma {:induction false} NothingLeftToJoin()
    ensures Startable([Item(WHOLE, Fresh)], 2, 2)
    ensures var gs := FirstPlacing([Item(WHOLE, Fresh)], 2, 2);
            var next := Round([Item(WHOLE, Kept(gs[0]))], [0]);
            RunOk([Item(WHOLE, Fresh)], gs, [next], 2, 2) && RunFrom(gs, [next], 2, 2) == NoUnits
  {
    var items := [Item(WHOLE, Fresh)];
    WholeFits(Fresh);
    var gs := FirstPlacing(items, 2, 2);
    FirstPlacingHouses(items, 2, 2);
    var next := [Item(WHOLE, Kept(gs[0]))];
    WholeFits(Kept(gs[0]));
    NextRelocatable(items, gs, next, [0], 2, 2);
    NoUnitsIff(next, 2, 2);
    TwoOfTwo(gs[0]);
    forall g: nat | g < 2 ensures HeldWide(next, 2, g) {
      assert g in HeldGpus(next[0]);
    }
  }

  lemma {:induction false} TwoOfTwo(s: seq<nat>)
    requires |s| == 2 && Distinct(s) && forall g :: g in s ==> g < 2
    ensures forall g: nat :: g < 2 ==> g in s
  {
    assert s[0] in s && s[1] in s;
  }
}
