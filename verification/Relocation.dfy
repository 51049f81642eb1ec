/** Choosing the GPUs of all running plans anew: wide plans that keep running stay where they are,
    everybody else shares the remaining units. */
module Relocation {
  import opened Lists
  import opened StableSort
  import opened GpuUnits
  import opened Placement

  const TOO_DEAR: int := 1_000_000_000

  predicate KeptWide(it: Item, unit: nat) {
    it.held.Kept? && it.plan.width >= unit
  }

  function HeldGpus(it: Item): seq<nat> {
    if it.held.Kept? then Take(it.held.gpus, it.plan.Size()) else []
  }

  // ----- the first loop

  function Narrower(items: seq<Item>): (nat, nat) -> bool {
    (i: nat, j: nat) => i < |items| && (j >= |items| || items[i].plan.width < items[j].plan.width)
  }

  /** Plans by increasing width. */
  function ByWidth(items: seq<Item>): seq<nat> {
    SortBy(UpTo(|items|), Narrower(items))
  }

  /** Plans that need GPUs: all but the wide ones that keep running. */
  function ToPlace(items: seq<Item>, order: seq<nat>, unit: nat): seq<nat>
    requires InRange(order, |items|)
  {
    if order == [] then []
    else
      var last := |order| - 1;
      ToPlace(items, order[..last], unit) + (if KeptWide(items[order[last]], unit) then [] else [order[last]])
  }

  function Staying(items: seq<Item>, order: seq<nat>, unit: nat): seq<nat>
    requires InRange(order, |items|)
  {
    if order == [] then []
    else
      var last := |order| - 1;
      Staying(items, order[..last], unit) + (if KeptWide(items[order[last]], unit) then [order[last]] else [])
  }

  function Occupied(items: seq<Item>, order: seq<nat>): set<nat>
    requires InRange(order, |items|)
  {
    if order == [] then {}
    else
      var last := |order| - 1;
      Occupied(items, order[..last]) + Members(HeldGpus(items[order[last]]))
  }

  predicate Touches(gpus: seq<nat>, u: nat, unit: nat)
    requires unit >= 1
  {
    exists g :: g in gpus && g / unit == u
  }

  /** What one plan adds to the cost of clearing unit u. */
  function CostStep(cost: int, it: Item, unit: nat, u: nat): int
    requires unit >= 1
  {
    if !Touches(HeldGpus(it), u, unit) then cost
    else if KeptWide(it, unit) then TOO_DEAR
    else cost + it.plan.load
  }

  /** Cost of taking unit u away from the plans that hold it. */
  function CostOf(items: seq<Item>, order: seq<nat>, unit: nat, u: nat): int
    requires InRange(order, |items|) && unit >= 1
  {
    if order == [] then 0
    else CostStep(CostOf(items, order[..|order| - 1], unit, u), items[order[|order| - 1]], unit, u)
  }

  function CountIn(gpus: seq<nat>, u: nat, unit: nat): nat
    requires unit >= 1
  {
    if gpus == [] then 0 else CountIn(gpus[1..], u, unit) + (if gpus[0] / unit == u then 1 else 0)
  }

  /** The loop's assertion on a wide plan that stays. */
  predicate FillsUnits(gpus: seq<nat>, unit: nat)
    requires unit >= 1
  {
    forall g :: g in gpus ==> CountIn(gpus, g / unit, unit) == unit
  }

  predicate StayersFill(items: seq<Item>, unit: nat)
    requires unit >= 1
  {
    forall i :: 0 <= i < |items| && KeptWide(items[i], unit) ==> FillsUnits(HeldGpus(items[i]), unit)
  }

  // ----- the candidate GPUs

  function Costs(items: seq<Item>, unit: nat, units: nat): (cs: seq<int>)
    requires unit >= 1
    ensures |cs| == units
  {
    SortMembers(items);
    seq(units, u requires 0 <= u < units => CostOf(items, ByWidth(items), unit, u))
  }

  lemma {:induction false} SortMembers(items: seq<Item>)
    ensures InRange(ByWidth(items), |items|) && |ByWidth(items)| == |items| && Distinct(ByWidth(items))
    ensures forall i: nat :: i < |items| ==> i in ByWidth(items)
  {
    SortFacts(UpTo(|items|), Narrower(items));
    var o := ByWidth(items);
    forall k | 0 <= k < |o| ensures o[k] < |items| {
      assert o[k] in o;
    }
    forall i: nat | i < |items| ensures i in o {
      assert UpTo(|items|)[i] == i;
    }
  }

  function Cheaper(costs: seq<int>): (nat, nat) -> bool {
    (a: nat, b: nat) => a < |costs| && (b >= |costs| || costs[a] < costs[b])
  }

  function Affordable(costs: seq<int>, us: seq<nat>): seq<nat>
    requires InRange(us, |costs|)
  {
    if us == [] then []
    else (if costs[us[0]] < TOO_DEAR then [us[0]] else []) + Affordable(costs, us[1..])
  }

  /** Units to give away, cheapest first. */
  function UnitOrder(costs: seq<int>): seq<nat> {
    CheaperMembers(costs);
    Affordable(costs, SortBy(UpTo(|costs|), Cheaper(costs)))
  }

  lemma {:induction false} CheaperMembers(costs: seq<int>)
    ensures var s := SortBy(UpTo(|costs|), Cheaper(costs));
            InRange(s, |costs|) && Distinct(s) && forall u: nat :: u < |costs| ==> u in s
  {
    SortFacts(UpTo(|costs|), Cheaper(costs));
    var s := SortBy(UpTo(|costs|), Cheaper(costs));
    forall k | 0 <= k < |s| ensures s[k] < |costs| {
      assert s[k] in s;
    }
    forall u: nat | u < |costs| ensures u in s {
      assert UpTo(|costs|)[u] == u;
    }
  }

  function Freer(occupied: set<nat>): (nat, nat) -> bool {
    (a: nat, b: nat) => a !in occupied && b in occupied
  }

  function UnitGpus(u: nat, unit: nat): (s: seq<nat>)
    ensures |s| == unit && forall k :: 0 <= k < unit ==> s[k] == u * unit + k
  {
    seq(unit, k requires 0 <= k < unit => u * unit + k)
  }

  /** The GPUs of unit u, free ones first. */
  function Arranged(u: nat, unit: nat, occupied: set<nat>): seq<nat> {
    SortBy(UnitGpus(u, unit), Freer(occupied))
  }

  function Chunks(us: seq<nat>, unit: nat, occupied: set<nat>): (cs: seq<seq<nat>>)
    ensures |cs| == |us|
  {
    if us == [] then [] else [Arranged(us[0], unit, occupied)] + Chunks(us[1..], unit, occupied)
  }

  // ----- the order of placing, and the result

  datatype Rank = Rank(width: nat, kept: bool, whole: bool, size: nat)

  function RankOf(it: Item, unit: nat): Rank
    requires unit >= 1
  {
    Rank(it.plan.width, it.held.Kept?, it.plan.Size() % unit == 0, it.plan.Size())
  }

  /** Comparing the tuples element by element; false is below true. */
  predicate Above(a: Rank, b: Rank) {
    if a.width != b.width then a.width > b.width
    else if a.kept != b.kept then a.kept
    else if a.whole != b.whole then a.whole
    else a.size > b.size
  }

  function Outranks(items: seq<Item>, unit: nat): (nat, nat) -> bool
    requires unit >= 1
  {
    (i: nat, j: nat) => i < |items| && (j >= |items| || Above(RankOf(items[i], unit), RankOf(items[j], unit)))
  }

  function PlacingOrder(items: seq<Item>, unit: nat): seq<nat>
    requires unit >= 1
  {
    SortMembers(items);
    SortBy(ToPlace(items, ByWidth(items), unit), Outranks(items, unit))
  }

  /** Writing the placings back, one plan after the other. */
  function WriteBack(base: seq<seq<nat>>, order: seq<nat>, ps: seq<Placing>): (r: seq<seq<nat>>)
    requires |ps| == |order| && InRange(order, |base|)
    ensures |r| == |base|
    decreases |order|
  {
    if order == [] then base
    else
      var last := |order| - 1;
      WriteBack(base, order[..last], ps[..last])[order[last] := ps[last].gpus]
  }

  function Base(items: seq<Item>): (b: seq<seq<nat>>)
    ensures |b| == |items|
    ensures forall i :: 0 <= i < |b| ==> b[i] == if items[i].held.Kept? then items[i].held.gpus else []
  {
    seq(|items|, i requires 0 <= i < |items| => if items[i].held.Kept? then items[i].held.gpus else [])
  }

  /** Plans that were running and have to be loaded again somewhere else. */
  function Movers(order: seq<nat>, ps: seq<Placing>): seq<nat>
    requires |ps| == |order|
    decreases |order|
  {
    if order == [] then []
    else
      var last := |order| - 1;
      Movers(order[..last], ps[..last]) + (if ps[last].moved then [order[last]] else [])
  }

  /** UnitBroken: a wide plan that stays does not fill its units (the assertion fails). NoUnits: no
      unit is left to share out (joining an empty list of units is an error). */
  datatype Outcome = Placed(gpus: seq<seq<nat>>, movers: seq<nat>) | UnitBroken | NoUnits

  function Candidates(items: seq<Item>, tot: nat, unit: nat): seq<nat>
    requires unit >= 1
  {
    SortMembers(items);
    Flat(Chunks(UnitOrder(Costs(items, unit, tot / unit)), unit, Occupied(items, ByWidth(items))))
  }

  function Relocate(items: seq<Item>, tot: nat, unit: nat): Outcome
    requires unit >= 1
  {
    if !StayersFill(items, unit) then UnitBroken
    else if UnitOrder(Costs(items, unit, tot / unit)) == [] then NoUnits
    else
      PlacingInRange(items, unit);
      var order := PlacingOrder(items, unit);
      var ps := Reassign(Gather(items, order), Candidates(items, tot, unit), unit);
      Outcome.Placed(WriteBack(Base(items), order, ps), Movers(order, ps))
  }

  // ----- facts about the lists

  lemma {:induction false} ToPlaceFacts(items: seq<Item>, order: seq<nat>, unit: nat)
    requires InRange(order, |items|) && Distinct(order)
    ensures Distinct(ToPlace(items, order, unit)) && Distinct(Staying(items, order, unit))
    ensures forall i :: i in ToPlace(items, order, unit) <==> i in order && !KeptWide(items[i], unit)
    ensures forall i :: i in Staying(items, order, unit) <==> i in order && KeptWide(items[i], unit)
    decreases |order|
  {
    if order != [] {
      var front, last := order[..|order| - 1], order[|order| - 1];
      assert forall i :: i in order <==> i in front || i == last;
      assert last !in front;
      ToPlaceFacts(items, front, unit);
    }
  }

  lemma {:induction false} PlacingInRange(items: seq<Item>, unit: nat)
    requires unit >= 1
    ensures InRange(PlacingOrder(items, unit), |items|) && Distinct(PlacingOrder(items, unit))
    ensures forall i: nat :: i in PlacingOrder(items, unit) <==> i < |items| && !KeptWide(items[i], unit)
  {
    SortMembers(items);
    var o := ByWidth(items);
    ToPlaceFacts(items, o, unit);
    forall i | i in o ensures i < |items| {
    }
    SortFacts(ToPlace(items, o, unit), Outranks(items, unit));
    var p := PlacingOrder(items, unit);
    forall k | 0 <= k < |p| ensures p[k] < |items| {
      assert p[k] in p;
    }
  }

  lemma {:induction false} AboveWeak(a: Rank, b: Rank, c: Rank)
    ensures !(Above(a, b) && Above(b, a))
    ensures !Above(a, b) && !Above(b, c) ==> !Above(a, c)
  {
  }

  lemma {:induction false} OutranksWeak(items: seq<Item>, unit: nat)
    requires unit >= 1
    ensures WeakOrder(Outranks(items, unit))
  {
    var above := Outranks(items, unit);
    forall i: nat, j: nat | above(i, j) ensures !above(j, i) {
      if j < |items| {
        AboveWeak(RankOf(items[i], unit), RankOf(items[j], unit), RankOf(items[i], unit));
      }
    }
    forall i: nat, j: nat, k: nat | !above(i, j) && !above(j, k) ensures !above(i, k) {
      if i < |items| && k < |items| && j < |items| {
        AboveWeak(RankOf(items[i], unit), RankOf(items[j], unit), RankOf(items[k], unit));
      }
    }
  }

  /** Plans are placed by decreasing width. */
  lemma {:induction false} PlacingDescends(items: seq<Item>, unit: nat)
    requires unit >= 1
    ensures InRange(PlacingOrder(items, unit), |items|)
    ensures var p := PlacingOrder(items, unit);
            forall j, k :: 0 <= j < k < |p| ==> items[p[j]].plan.width >= items[p[k]].plan.width
  {
    PlacingInRange(items, unit);
    SortMembers(items);
    ToPlaceFacts(items, ByWidth(items), unit);
    OutranksWeak(items, unit);
    SortFacts(ToPlace(items, ByWidth(items), unit), Outranks(items, unit));
    var p, above := PlacingOrder(items, unit), Outranks(items, unit);
    forall j, k | 0 <= j < k < |p| ensures items[p[j]].plan.width >= items[p[k]].plan.width {
      assert !above(p[k], p[j]);
    }
  }
}
