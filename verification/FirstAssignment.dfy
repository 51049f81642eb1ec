/** The assignment all plans of the first stage start with. */
module FirstAssignment {
  import opened Lists
  import opened Requests
  import opened Divisibility
  import opened StableSort
  import opened GpuUnits
  import opened Placement
  import opened Relocation
  import opened RelocationSound
  import opened PlacementStays

  /** The largest (width, whole units, copies) first. */
  predicate AboveAtStart(a: Plan, b: Plan, unit: nat)
    requires unit >= 1
  {
    var wa, wb := a.Size() % unit == 0, b.Size() % unit == 0;
    if a.width != b.width then a.width > b.width
    else if wa != wb then wa
    else a.copies > b.copies
  }

  function OutranksAtStart(items: seq<Item>, unit: nat): (nat, nat) -> bool
    requires unit >= 1
  {
    (i: nat, j: nat) => i < |items| && (j >= |items| || AboveAtStart(items[i].plan, items[j].plan, unit))
  }

  function StartOrder(items: seq<Item>, unit: nat): seq<nat>
    requires unit >= 1
  {
    SortBy(UpTo(|items|), OutranksAtStart(items, unit))
  }

  function FirstPlacing(items: seq<Item>, tot: nat, unit: nat): (gs: seq<seq<nat>>)
    requires unit >= 1
    ensures |gs| == |items|
  {
    StartInRange(items, unit);
    var order := StartOrder(items, unit);
    WriteBack(Base(items), order, Reassign(Gather(items, order), UpTo(tot), unit))
  }

  lemma {:induction false} StartInRange(items: seq<Item>, unit: nat)
    requires unit >= 1
    ensures InRange(StartOrder(items, unit), |items|) && Distinct(StartOrder(items, unit))
    ensures forall i: nat :: i < |items| ==> i in StartOrder(items, unit)
  {
    SortFacts(UpTo(|items|), OutranksAtStart(items, unit));
    var o := StartOrder(items, unit);
    forall k | 0 <= k < |o| ensures o[k] < |items| {
      assert o[k] in o;
    }
    forall i: nat | i < |items| ensures i in o {
      assert UpTo(|items|)[i] == i;
    }
  }

  lemma {:induction false} AboveAtStartWeak(a: Plan, b: Plan, c: Plan, unit: nat)
    requires unit >= 1
    ensures !(AboveAtStart(a, b, unit) && AboveAtStart(b, a, unit))
    ensures !AboveAtStart(a, b, unit) && !AboveAtStart(b, c, unit) ==> !AboveAtStart(a, c, unit)
  {
  }

  lemma {:induction false} StartDescends(items: seq<Item>, unit: nat)
    requires unit >= 1
    ensures InRange(StartOrder(items, unit), |items|)
    ensures var o := StartOrder(items, unit);
            forall j, k :: 0 <= j < k < |o| ==> items[o[j]].plan.width >= items[o[k]].plan.width
  {
    StartInRange(items, unit);
    var o := StartOrder(items, unit);
    forall j: nat, k: nat | j < k < |o| ensures items[o[j]].plan.width >= items[o[k]].plan.width {
      StartsInTurn(items, unit, j, k);
    }
  }

  /** The machine, unit by unit. */
  function AllUnits(units: nat, unit: nat): seq<seq<nat>> {
    if units == 0 then [] else AllUnits(units - 1, unit) + [UnitGpus(units - 1, unit)]
  }

  lemma {:induction false} DealtAppend(cs: seq<seq<nat>>, us: seq<nat>, c: seq<nat>, u: nat, unit: nat, m: nat)
    requires unit >= 1 && m >= 1 && Dealt(cs, us, unit, m)
    requires Distinct(c) && InUnit(c, u, unit) && Divides(m, |c|) && u !in us
    ensures Dealt(cs + [c], us + [u], unit, m) && Flat(cs + [c]) == Flat(cs) + c
    decreases |cs|
  {
    if cs == [] {
      DealtCons(c, [], [u], unit, m);
      assert [] + [c] == [c] + [] && us + [u] == [u];
    } else {
      DealtAppend(cs[1..], us[1..], c, u, unit, m);
      assert (cs + [c])[1..] == cs[1..] + [c] && (us + [u])[1..] == us[1..] + [u];
    }
  }

  lemma {:induction false} AllUnitsDealt(units: nat, unit: nat)
    requires unit >= 1
    ensures Dealt(AllUnits(units, unit), UpTo(units), unit, unit)
    ensures Flat(AllUnits(units, unit)) == UpTo(units * unit)
  {
    if units > 0 {
      var u: nat := units - 1;
      var c := UnitGpus(u, unit);
      AllUnitsDealt(u, unit);
      forall g | g in c ensures g / unit == u {
        UnitMember(g, u, unit);
      }
      MultipleDivides(1, unit);
      DealtAppend(AllUnits(u, unit), UpTo(u), c, u, unit, unit);
      MulNext(u, unit);
      assert UpTo(u) + [u] == UpTo(units);
      assert UpTo(u * unit) + c == UpTo(units * unit);
    }
  }

  lemma {:induction false} WholeMachine(tot: nat, unit: nat)
    requires unit >= 1 && Divides(unit, tot)
    ensures Dealt(AllUnits(tot / unit, unit), UpTo(tot / unit), unit, unit)
    ensures Flat(AllUnits(tot / unit, unit)) == UpTo(tot)
  {
    var units: nat := tot / unit;
    assert tot == units * unit;
    AllUnitsDealt(units, unit);
  }

  /** What the first assignment starts from. */
  ghost predicate Startable(items: seq<Item>, tot: nat, unit: nat) {
    && unit >= 1 && Divides(unit, tot) && WidthsChain(items) && Total(Sizes(items)) <= tot
    && forall i :: 0 <= i < |items| ==> PlanOk(items[i].plan, unit) && items[i].held.Fresh?
  }

  lemma {:induction false} StartReady(items: seq<Item>, tot: nat, unit: nat)
    requires Startable(items, tot, unit)
    ensures InRange(StartOrder(items, unit), |items|)
    ensures var r := Gather(items, StartOrder(items, unit));
            PortionsChain(r, unit) && forall k :: 0 <= k < |r| ==> ItemOk(r[k], unit)
  {
    StartDescends(items, unit);
    var order := StartOrder(items, unit);
    var r := Gather(items, order);
    forall k | 0 <= k < |r| ensures ItemOk(r[k], unit) {
      assert PlanOk(items[order[k]].plan, unit);
    }
    forall j, k | 0 <= j < k < |r| ensures Divides(r[k].plan.Portion(unit), r[j].plan.Portion(unit)) {
      assert PlanOk(items[order[j]].plan, unit) && PlanOk(items[order[k]].plan, unit);
      PortionDivides(r[j].plan, r[k].plan, unit);
    }
  }

  lemma {:induction false} StartFits(items: seq<Item>, tot: nat, unit: nat)
    requires Startable(items, tot, unit)
    ensures InRange(StartOrder(items, unit), |items|)
    ensures Demand(Gather(items, StartOrder(items, unit))) <= tot
  {
    StartInRange(items, unit);
    DemandIsSum(items, StartOrder(items, unit));
    SortSum(Sizes(items), UpTo(|items|), OutranksAtStart(items, unit));
  }

  lemma {:induction false} StartPlaced(items: seq<Item>, tot: nat, unit: nat)
    requires Startable(items, tot, unit)
    ensures InRange(StartOrder(items, unit), |items|)
    ensures var order := StartOrder(items, unit);
            var ps := Reassign(Gather(items, order), UpTo(tot), unit);
            && (forall k :: 0 <= k < |ps| ==> Housed(ps[k].gpus, items[order[k]].plan, unit))
            && (forall k, g :: 0 <= k < |ps| && g in ps[k].gpus ==> g in UpTo(tot))
            && (forall j, k :: 0 <= j < k < |ps| ==> Apart(ps[j].gpus, ps[k].gpus))
  {
    StartReady(items, tot, unit);
    StartFits(items, tot, unit);
    var r := Gather(items, StartOrder(items, unit));
    var units: nat := tot / unit;
    WholeMachine(tot, unit);
    if r != [] {
      assert ItemOk(r[0], unit);
      MultipleDivides(1, r[0].plan.width);
      PortionDivides(r[0].plan, r[0].plan, unit);
      DealtFiner(AllUnits(units, unit), UpTo(units), unit, unit, r[0].plan.Portion(unit));
    }
    ReassignSound(r, AllUnits(units, unit), UpTo(units), unit);
  }

  lemma {:induction false} WrittenAt(base: seq<seq<nat>>, order: seq<nat>, ps: seq<Placing>, i: nat) returns (k: nat)
    requires |ps| == |order| && InRange(order, |base|) && Distinct(order) && i in order
    ensures k < |order| && order[k] == i && WriteBack(base, order, ps)[i] == ps[k].gpus
  {
    k :| k < |order| && order[k] == i;
    WriteBackAt(base, order, ps, k);
  }

  lemma {:induction false} OneStarts(items: seq<Item>, tot: nat, unit: nat, i: nat)
    requires Startable(items, tot, unit) && i < |items|
    ensures var gs := FirstPlacing(items, tot, unit);
            Housed(gs[i], items[i].plan, unit) && forall g :: g in gs[i] ==> g < tot
  {
    StartInRange(items, unit);
    StartPlaced(items, tot, unit);
    var order := StartOrder(items, unit);
    var ps := Reassign(Gather(items, order), UpTo(tot), unit);
    var k := WrittenAt(Base(items), order, ps, i);
    assert Housed(ps[k].gpus, items[order[k]].plan, unit);
    forall g | g in ps[k].gpus ensures g < tot {
      assert g in UpTo(tot);
    }
  }

  lemma {:induction false} TwoStart(items: seq<Item>, tot: nat, unit: nat, i: nat, j: nat)
    requires Startable(items, tot, unit) && i < |items| && j < |items| && i != j
    ensures var gs := FirstPlacing(items, tot, unit); Apart(gs[i], gs[j])
  {
    StartInRange(items, unit);
    StartPlaced(items, tot, unit);
    var order := StartOrder(items, unit);
    var k := WrittenAt(Base(items), order, Reassign(Gather(items, order), UpTo(tot), unit), i);
    var l := WrittenAt(Base(items), order, Reassign(Gather(items, order), UpTo(tot), unit), j);
  }

  /** The first assignment houses every plan. */
  lemma {:induction false} FirstPlacingHouses(items: seq<Item>, tot: nat, unit: nat)
    requires Startable(items, tot, unit)
    ensures AllHoused(items, FirstPlacing(items, tot, unit), tot, unit)
  {
    var gs := FirstPlacing(items, tot, unit);
    forall i: nat | i < |items| ensures Housed(gs[i], items[i].plan, unit) && forall g :: g in gs[i] ==> g < tot {
      OneStarts(items, tot, unit, i);
    }
    forall i: nat, j: nat | i < |items| && j < |items| && i != j ensures Apart(gs[i], gs[j]) {
      TwoStart(items, tot, unit, i, j);
    }
  }

  /** Plans start by decreasing width; of the same width, those that fill whole units first, then
      those with the most replicas, then in the given order. */
  lemma {:induction false} StartsInTurn(items: seq<Item>, unit: nat, j: nat, k: nat)
    requires unit >= 1 && j < k < |StartOrder(items, unit)|
    ensures InRange(StartOrder(items, unit), |items|)
    ensures var i, n := StartOrder(items, unit)[j], StartOrder(items, unit)[k];
            var a, b := items[i].plan, items[n].plan;
            var wholeA, wholeB := a.Size() % unit == 0, b.Size() % unit == 0;
            || a.width > b.width
            || (a.width == b.width && wholeA && !wholeB)
            || (a.width == b.width && wholeA == wholeB && a.copies > b.copies)
            || (a.width == b.width && wholeA == wholeB && a.copies == b.copies && i < n)
  {
    StartInRange(items, unit);
    OutranksAtStartWeak(items, unit);
    SortStable(UpTo(|items|), OutranksAtStart(items, unit));
    assert Precedes(StartOrder(items, unit)[j], StartOrder(items, unit)[k], OutranksAtStart(items, unit));
  }

  lemma {:induction false} OutranksAtStartWeak(items: seq<Item>, unit: nat)
    requires unit >= 1
    ensures WeakOrder(OutranksAtStart(items, unit))
  {
    var above := OutranksAtStart(items, unit);
    forall i: nat, j: nat | above(i, j) ensures !above(j, i) {
      if j < |items| {
        AboveAtStartWeak(items[i].plan, items[j].plan, items[i].plan, unit);
      }
    }
    forall i: nat, j: nat, k: nat | !above(i, j) && !above(j, k) ensures !above(i, k) {
      if i < |items| && k < |items| && j < |items| {
        AboveAtStartWeak(items[i].plan, items[j].plan, items[k].plan, unit);
      }
    }
  }

  /** In that order each plan takes the lowest GPUs that nobody has got before. */
  lemma {:induction false} FirstTakes(items: seq<Item>, tot: nat, unit: nat, k: nat)
    requires unit >= 1 && (forall i :: 0 <= i < |items| ==> items[i].held.Fresh?) && k < |StartOrder(items, unit)|
    ensures InRange(StartOrder(items, unit), |items|)
    ensures var gs, order := FirstPlacing(items, tot, unit), StartOrder(items, unit);
            gs[order[k]] == Take(Without(UpTo(tot), GivenTo(gs, order[..k])), items[order[k]].plan.Size())
  {
    StartInRange(items, unit);
    var gs, order := FirstPlacing(items, tot, unit), StartOrder(items, unit);
    var ps := Reassign(Gather(items, order), UpTo(tot), unit);
    forall j | 0 <= j < |order| ensures gs[order[j]] == ps[j].gpus {
      WriteBackAt(Base(items), order, ps, j);
    }
    StaysAt(items, order, UpTo(tot), gs, ps, unit, k);
  }
}
