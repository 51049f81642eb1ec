/** Who stays when the GPUs are chosen anew: read off the result, without the loop that places. */
module PlacementStays {
  import opened Lists
  import opened StableSort
  import opened GpuUnits
  import opened Placement
  import opened Relocation
  import opened RelocationSound

  // ----- the placing loop

  function HandedOut(ps: seq<Placing>): seq<nat> {
    if ps == [] then [] else ps[0].gpus + HandedOut(ps[1..])
  }

  lemma {:induction false} PlaceRest(it: Item, cand: seq<nat>, unit: nat)
    requires unit >= 1 && Distinct(cand)
    ensures var p := Place(it, cand, unit); p.rest == Without(cand, p.gpus) && Distinct(p.rest)
  {
    var n := it.plan.Size();
    if !CanKeep(it, cand, unit) {
      if n <= |cand| {
        DropIsWithout(cand, n);
      } else {
        WithoutEverything(cand, cand);
      }
    }
    WithoutKeeps(cand, Place(it, cand, unit).gpus);
  }

  /** Every plan is placed on the candidates without those handed out before. */
  lemma {:induction false} ReassignAt(items: seq<Item>, cand: seq<nat>, unit: nat, k: nat)
    requires unit >= 1 && Distinct(cand) && k < |items|
    ensures var ps := Reassign(items, cand, unit);
            ps[k] == Place(items[k], Without(cand, HandedOut(ps[..k])), unit)
    decreases k
  {
    var ps := Reassign(items, cand, unit);
    if k == 0 {
      WithoutNothing(cand, []);
    } else {
      var p := Place(items[0], cand, unit);
      var qs := Reassign(items[1..], p.rest, unit);
      PlaceRest(items[0], cand, unit);
      ReassignAt(items[1..], p.rest, unit, k - 1);
      assert ps[..k] == [p] + qs[..k - 1];
      assert ([p] + qs[..k - 1])[1..] == qs[..k - 1];
      WithoutTwice(cand, p.gpus, HandedOut(qs[..k - 1]));
    }
  }

  // ----- the law

  /** What the first k plans of the order have got. */
  function GivenTo(gs: seq<seq<nat>>, order: seq<nat>): seq<nat>
    requires InRange(order, |gs|)
  {
    if order == [] then [] else gs[order[0]] + GivenTo(gs, order[1..])
  }

  /** The GPU is a candidate that nobody placed before has got. */
  ghost predicate LeftFor(cand: seq<nat>, gs: seq<seq<nat>>, order: seq<nat>, k: nat, g: nat)
    requires InRange(order, |gs|) && k <= |order|
  {
    g in cand && forall j :: 0 <= j < k ==> g !in gs[order[j]]
  }

  /** A narrow plan that was running, all of whose GPUs are left, each replica inside one unit. */
  ghost predicate MayStay(it: Item, unit: nat, cand: seq<nat>, gs: seq<seq<nat>>, order: seq<nat>, k: nat)
    requires unit >= 1 && InRange(order, |gs|) && k <= |order|
  {
    && it.held.Kept? && it.plan.width < unit
    && (forall g :: g in it.held.gpus ==> LeftFor(cand, gs, order, k, g))
    && forall i: nat :: i < it.plan.copies ==> OneUnit(Group(it.held.gpus, it.plan.width, i), unit)
  }

  /** Plan k of the placing order: it stays if and only if it may, and is to be reloaded if and only
      if it was running and may not; who does not stay gets the first candidates left. */
  ghost predicate StayLaw(
      items: seq<Item>, order: seq<nat>, cand: seq<nat>, gs: seq<seq<nat>>, movers: seq<nat>, unit: nat, k: nat)
    requires unit >= 1 && |gs| == |items| && InRange(order, |items|) && k < |order|
  {
    var i, stays := order[k], MayStay(items[order[k]], unit, cand, gs, order, k);
    && (i in movers <==> items[i].held.Kept? && !stays)
    && (stays ==> gs[i] == items[i].held.gpus)
    && (!stays ==> gs[i] == Take(Without(cand, GivenTo(gs, order[..k])), items[i].plan.Size()))
  }

  /** A plan that was running holds as many GPUs as it needs. */
  ghost predicate RightLength(it: Item) {
    it.held.Kept? ==> |it.held.gpus| == it.plan.Size()
  }

  lemma {:induction false} MoverAt(order: seq<nat>, ps: seq<Placing>, k: nat)
    requires |ps| == |order| && Distinct(order) && k < |order|
    ensures order[k] in Movers(order, ps) <==> ps[k].moved
    decreases |order|
  {
    var last := |order| - 1;
    if k < last {
      MoverAt(order[..last], ps[..last], k);
    } else {
      MoversListed(order[..last], ps[..last], order[last]);
    }
  }

  lemma {:induction false} MoversListed(order: seq<nat>, ps: seq<Placing>, i: nat)
    requires |ps| == |order|
    ensures i in Movers(order, ps) ==> i in order
    decreases |order|
  {
    if order != [] {
      var last := |order| - 1;
      MoversListed(order[..last], ps[..last], i);
    }
  }

  lemma {:induction false} GivenIsHanded(gs: seq<seq<nat>>, order: seq<nat>, ps: seq<Placing>)
    requires InRange(order, |gs|) && |ps| == |order| && forall k :: 0 <= k < |order| ==> gs[order[k]] == ps[k].gpus
    ensures GivenTo(gs, order) == HandedOut(ps)
  {
    if order != [] {
      GivenIsHanded(gs, order[1..], ps[1..]);
    }
  }

  lemma {:induction false} GivenMember(gs: seq<seq<nat>>, order: seq<nat>, g: nat)
    requires InRange(order, |gs|)
    ensures g in GivenTo(gs, order) <==> exists j :: 0 <= j < |order| && g in gs[order[j]]
  {
    if order != [] {
      GivenMember(gs, order[1..], g);
      if j :| 0 <= j < |order[1..]| && g in gs[order[1..][j]] {
        assert g in gs[order[j + 1]];
      }
      if j :| 0 <= j < |order| && g in gs[order[j]] {
        assert j > 0 ==> g in gs[order[1..][j - 1]];
      }
    }
  }

  lemma {:induction false} LeftIsWithout(cand: seq<nat>, gs: seq<seq<nat>>, order: seq<nat>, k: nat, g: nat)
    requires InRange(order, |gs|) && k <= |order|
    ensures g in Without(cand, GivenTo(gs, order[..k])) <==> LeftFor(cand, gs, order, k, g)
  {
    WithoutMember(cand, GivenTo(gs, order[..k]), g);
    GivenMember(gs, order[..k], g);
  }

  lemma {:induction false} AllLeft(
      s: seq<nat>, cand: seq<nat>, gs: seq<seq<nat>>, order: seq<nat>, k: nat, rest: seq<nat>)
    requires InRange(order, |gs|) && k <= |order| && rest == Without(cand, GivenTo(gs, order[..k]))
    ensures (forall g :: g in s ==> g in rest) <==> forall g :: g in s ==> LeftFor(cand, gs, order, k, g)
  {
    forall g: nat ensures g in rest <==> LeftFor(cand, gs, order, k, g) {
      LeftIsWithout(cand, gs, order, k, g);
    }
  }

  lemma {:induction false} GroupsIff(gpus: seq<nat>, p: Plan, unit: nat)
    requires unit >= 1
    ensures (forall i: nat :: i < p.copies ==> EndsTogether(Group(gpus, p.width, i), unit))
            <==> forall i: nat :: i < p.copies ==> OneUnit(Group(gpus, p.width, i), unit)
  {
    forall i: nat ensures EndsTogether(Group(gpus, p.width, i), unit) <==> OneUnit(Group(gpus, p.width, i), unit) {
      EndsTogetherIff(Group(gpus, p.width, i), unit);
    }
  }

  /** The test of the loop, in terms of units. */
  lemma {:induction false} KeepIff(
      it: Item, unit: nat, cand: seq<nat>, gs: seq<seq<nat>>, order: seq<nat>, k: nat)
    requires unit >= 1 && InRange(order, |gs|) && k <= |order| && RightLength(it)
    ensures CanKeep(it, Without(cand, GivenTo(gs, order[..k])), unit) <==> MayStay(it, unit, cand, gs, order, k)
  {
    if it.held.Kept? {
      assert Take(it.held.gpus, it.plan.Size()) == it.held.gpus;
      AllLeft(it.held.gpus, cand, gs, order, k, Without(cand, GivenTo(gs, order[..k])));
      GroupsIff(it.held.gpus, it.plan, unit);
    }
  }

  lemma {:induction false} StaysAt(
      items: seq<Item>, order: seq<nat>, cand: seq<nat>, gs: seq<seq<nat>>, ps: seq<Placing>, unit: nat, k: nat)
    requires unit >= 1 && |gs| == |items| && InRange(order, |items|) && Distinct(order) && Distinct(cand)
    requires k < |order| && RightLength(items[order[k]])
    requires ps == Reassign(Gather(items, order), cand, unit)
    requires forall j :: 0 <= j < |order| ==> gs[order[j]] == ps[j].gpus
    ensures StayLaw(items, order, cand, gs, Movers(order, ps), unit, k)
  {
    ReassignAt(Gather(items, order), cand, unit, k);
    GivenIsHanded(gs, order[..k], ps[..k]);
    KeepIff(items[order[k]], unit, cand, gs, order, k);
    MoverAt(order, ps, k);
  }

  lemma {:induction false} CandidatesDistinct(items: seq<Item>, tot: nat, unit: nat)
    requires unit >= 1
    ensures Distinct(Candidates(items, tot, unit))
  {
    SortMembers(items);
    var us, busy := UnitOrder(Costs(items, unit, tot / unit)), Occupied(items, ByWidth(items));
    UnitOrderFacts(Costs(items, unit, tot / unit));
    ChunksDealt(us, unit, busy);
    FlatDistinct(Chunks(us, unit, busy), us, unit, unit);
  }

  /** Every relocation obeys the law; wide plans that keep running are never to be reloaded. */
  ghost predicate StaysExactly(
      items: seq<Item>, order: seq<nat>, cand: seq<nat>, gs: seq<seq<nat>>, movers: seq<nat>, unit: nat)
    requires unit >= 1
  {
    && |gs| == |items| && InRange(order, |items|) && Distinct(order)
    && (forall i: nat :: i in order <==> i < |items| && !KeptWide(items[i], unit))
    && (forall i :: i in movers ==> i in order)
    && (forall i: nat :: i < |items| && KeptWide(items[i], unit) ==> gs[i] == items[i].held.gpus)
    && forall k: nat :: k < |order| ==> StayLaw(items, order, cand, gs, movers, unit, k)
  }

  lemma {:induction false} RelocationStays(items: seq<Item>, tot: nat, unit: nat)
    requires unit >= 1 && Relocate(items, tot, unit).Placed?
    requires forall i :: 0 <= i < |items| ==> RightLength(items[i])
    ensures var o := Relocate(items, tot, unit);
            StaysExactly(items, PlacingOrder(items, unit), Candidates(items, tot, unit), o.gpus, o.movers, unit)
  {
    PlacingInRange(items, unit);
    CandidatesDistinct(items, tot, unit);
    var order, cand := PlacingOrder(items, unit), Candidates(items, tot, unit);
    var ps := Reassign(Gather(items, order), cand, unit);
    var gs := WriteBack(Base(items), order, ps);
    forall j | 0 <= j < |order| ensures gs[order[j]] == ps[j].gpus {
      WriteBackAt(Base(items), order, ps, j);
    }
    forall i: nat | i < |items| && KeptWide(items[i], unit) ensures gs[i] == items[i].held.gpus {
      WriteBackElse(Base(items), order, ps, i);
    }
    forall i: nat ensures i in Movers(order, ps) ==> i in order {
      MoversListed(order, ps, i);
    }
    forall k: nat | k < |order| ensures StayLaw(items, order, cand, gs, Movers(order, ps), unit, k) {
      StaysAt(items, order, cand, gs, ps, unit, k);
    }
  }

  // ----- nobody moves without need

  /** All plans were running, well placed and disjoint. */
  ghost predicate AllWell(items: seq<Item>, tot: nat, unit: nat)
    requires unit >= 1
  {
    (forall i :: 0 <= i < |items| ==> items[i].held.Kept?) && AllHoused(items, Base(items), tot, unit)
  }

  lemma {:induction false} WellMayStay(
      items: seq<Item>, tot: nat, unit: nat, order: seq<nat>, gs: seq<seq<nat>>, k: nat)
    requires Relocatable(items, tot, unit) && AllWell(items, tot, unit) && |gs| == |items|
    requires InRange(order, |items|) && Distinct(order) && k < |order| && !KeptWide(items[order[k]], unit)
    requires forall j :: 0 <= j < k ==> gs[order[j]] == Base(items)[order[j]]
    ensures MayStay(items[order[k]], unit, Candidates(items, tot, unit), gs, order, k)
  {
    var b, n := Base(items), order[k];
    assert Housed(b[n], items[n].plan, unit);
    forall g | g in items[n].held.gpus ensures LeftFor(Candidates(items, tot, unit), gs, order, k, g) {
      assert g in b[n];
      CandidateIff(items, tot, unit, g);
      forall i: nat | i < |items| && KeptWide(items[i], unit) ensures g !in HeldGpus(items[i]) {
        assert Apart(b[n], b[i]);
      }
      forall j | 0 <= j < k ensures g !in gs[order[j]] {
        assert Apart(b[n], b[order[j]]);
      }
    }
  }

  lemma {:induction false} WellStep(
      items: seq<Item>, order: seq<nat>, cand: seq<nat>, gs: seq<seq<nat>>, movers: seq<nat>, unit: nat, k: nat)
    requires unit >= 1 && |gs| == |items| && InRange(order, |items|) && k < |order|
    requires StayLaw(items, order, cand, gs, movers, unit, k)
    requires MayStay(items[order[k]], unit, cand, gs, order, k)
    ensures gs[order[k]] == Base(items)[order[k]] && order[k] !in movers
  {
  }

  /** The first k plans of the order have not moved. */
  ghost predicate Stayed(items: seq<Item>, order: seq<nat>, gs: seq<seq<nat>>, movers: seq<nat>, k: nat)
    requires |gs| == |items| && InRange(order, |items|) && k <= |order|
  {
    forall j :: 0 <= j < k ==> gs[order[j]] == Base(items)[order[j]] && order[j] !in movers
  }

  lemma {:induction false} WellNext(
      items: seq<Item>, tot: nat, unit: nat, order: seq<nat>, cand: seq<nat>, gs: seq<seq<nat>>, movers: seq<nat>,
      k: nat)
    requires Relocatable(items, tot, unit) && AllWell(items, tot, unit) && cand == Candidates(items, tot, unit)
    requires StaysExactly(items, order, cand, gs, movers, unit) && k < |order|
    requires forall j :: 0 <= j < k ==> gs[order[j]] == Base(items)[order[j]]
    ensures gs[order[k]] == Base(items)[order[k]] && order[k] !in movers
  {
    assert order[k] in order;
    WellMayStay(items, tot, unit, order, gs, k);
    WellStep(items, order, cand, gs, movers, unit, k);
  }

  lemma {:induction false} WellStay(
      items: seq<Item>, tot: nat, unit: nat, order: seq<nat>, cand: seq<nat>, gs: seq<seq<nat>>, movers: seq<nat>)
    requires Relocatable(items, tot, unit) && AllWell(items, tot, unit) && cand == Candidates(items, tot, unit)
    requires StaysExactly(items, order, cand, gs, movers, unit)
    ensures Stayed(items, order, gs, movers, |order|)
  {
    for k := 0 to |order|
      invariant Stayed(items, order, gs, movers, k)
    {
      WellNext(items, tot, unit, order, cand, gs, movers, k);
      StayedMore(items, order, gs, movers, k);
    }
  }

  lemma {:induction false} StayedMore(
      items: seq<Item>, order: seq<nat>, gs: seq<seq<nat>>, movers: seq<nat>, k: nat)
    requires |gs| == |items| && InRange(order, |items|) && k < |order| && Stayed(items, order, gs, movers, k)
    requires gs[order[k]] == Base(items)[order[k]] && order[k] !in movers
    ensures Stayed(items, order, gs, movers, k + 1)
  {
  }

  /** When no plan is new and all were placed well, nobody moves and nothing is reloaded. */
  lemma {:induction false} NobodyMoves(items: seq<Item>, tot: nat, unit: nat)
    requires Relocatable(items, tot, unit) && AllWell(items, tot, unit) && Relocate(items, tot, unit).Placed?
    ensures Relocate(items, tot, unit) == Outcome.Placed(Base(items), [])
  {
    RelocationStays(items, tot, unit);
    var o, order := Relocate(items, tot, unit), PlacingOrder(items, unit);
    WellStay(items, tot, unit, order, Candidates(items, tot, unit), o.gpus, o.movers);
    forall i: nat | i < |items| ensures o.gpus[i] == Base(items)[i] {
      if !KeptWide(items[i], unit) {
        assert i in order;
      }
    }
    NoMovers(order, o.movers);
  }

  lemma {:induction false} NoMovers(order: seq<nat>, movers: seq<nat>)
    requires (forall i :: i in movers ==> i in order) && forall j :: 0 <= j < |order| ==> order[j] !in movers
    ensures movers == []
  {
    Headed(movers);
  }

  lemma {:induction false} Headed(s: seq<nat>)
    ensures s != [] ==> s[0] in s
  {
  }

  // ----- in which order the GPUs are given away, and to whom

  /** Loads of the plans that hold part of unit u. */
  function LoadsOn(items: seq<Item>, unit: nat, u: nat): (v: seq<nat>)
    requires unit >= 1
    ensures |v| == |items|
    ensures forall i :: 0 <= i < |v| ==> v[i] == if Touches(HeldGpus(items[i]), u, unit) then items[i].plan.load else 0
  {
    seq(|items|, i requires 0 <= i < |items| =>
      if Touches(HeldGpus(items[i]), u, unit) then items[i].plan.load else 0)
  }

  lemma {:induction false} CostSum(items: seq<Item>, order: seq<nat>, unit: nat, u: nat)
    requires unit >= 1 && InRange(order, |items|) && !HeldByStayer(items, order, unit, u)
    ensures CostOf(items, order, unit, u) == SumAt(LoadsOn(items, unit, u), order)
    decreases |order|
  {
    if order != [] {
      var front, last := order[..|order| - 1], order[|order| - 1];
      assert forall i :: i in order <==> i in front || i == last;
      CostSum(items, front, unit, u);
    }
  }

  /** Clearing a unit that no staying wide plan holds costs the loads of all plans that hold part of it. */
  lemma {:induction false} CostExact(items: seq<Item>, unit: nat, u: nat)
    requires unit >= 1
    ensures InRange(ByWidth(items), |items|)
    ensures !HeldByStayer(items, ByWidth(items), unit, u) ==>
              CostOf(items, ByWidth(items), unit, u) == Total(LoadsOn(items, unit, u))
  {
    SortMembers(items);
    SortSum(LoadsOn(items, unit, u), UpTo(|items|), Narrower(items));
    if !HeldByStayer(items, ByWidth(items), unit, u) {
      CostSum(items, ByWidth(items), unit, u);
    }
  }

  lemma {:induction false} AffordableOrder(costs: seq<int>, us: seq<nat>)
    requires InRange(us, |costs|) && InOrder(us, Cheaper(costs))
    ensures InOrder(Affordable(costs, us), Cheaper(costs))
    ensures forall u :: u in Affordable(costs, us) ==> u in us
  {
    if us != [] {
      var rest := Affordable(costs, us[1..]);
      AffordableOrder(costs, us[1..]);
      forall k | 0 <= k < |rest| ensures Precedes(us[0], rest[k], Cheaper(costs)) {
        assert rest[k] in rest;
        var j :| 0 <= j < |us[1..]| && us[1..][j] == rest[k];
        assert us[j + 1] == rest[k];
      }
    }
  }

  /** Units are given away by increasing cost, those of the same cost by number. */
  lemma {:induction false} CheapestFirst(costs: seq<int>, j: nat, k: nat)
    requires j < k < |UnitOrder(costs)|
    ensures var a, b := UnitOrder(costs)[j], UnitOrder(costs)[k];
            a < |costs| && b < |costs| && (costs[a] < costs[b] || (costs[a] == costs[b] && a < b))
  {
    CheaperMembers(costs);
    UnitOrderFacts(costs);
    SortStable(UpTo(|costs|), Cheaper(costs));
    AffordableOrder(costs, SortBy(UpTo(|costs|), Cheaper(costs)));
    assert Precedes(UnitOrder(costs)[j], UnitOrder(costs)[k], Cheaper(costs));
  }

  /** In a unit the GPUs in use come last, otherwise by number. */
  lemma {:induction false} FreeFirst(u: nat, unit: nat, occupied: set<nat>, j: nat, k: nat)
    requires j < k < |Arranged(u, unit, occupied)|
    ensures var a, b := Arranged(u, unit, occupied)[j], Arranged(u, unit, occupied)[k];
            (a !in occupied && b in occupied) || ((a in occupied <==> b in occupied) && a < b)
  {
    SortStable(UnitGpus(u, unit), Freer(occupied));
    assert Precedes(Arranged(u, unit, occupied)[j], Arranged(u, unit, occupied)[k], Freer(occupied));
  }

  /** Plans are placed by decreasing width; of the same width, those that were running first, then
      those that fill whole units, then the largest. */
  lemma {:induction false} PlacedInTurn(items: seq<Item>, unit: nat, j: nat, k: nat)
    requires unit >= 1 && j < k < |PlacingOrder(items, unit)|
    ensures InRange(PlacingOrder(items, unit), |items|)
    ensures var a, b := items[PlacingOrder(items, unit)[j]], items[PlacingOrder(items, unit)[k]];
            var wholeA, wholeB := a.plan.Size() % unit == 0, b.plan.Size() % unit == 0;
            || a.plan.width > b.plan.width
            || (a.plan.width == b.plan.width && a.held.Kept? && !b.held.Kept?)
            || (a.plan.width == b.plan.width && a.held.Kept? == b.held.Kept? && wholeA && !wholeB)
            || (a.plan.width == b.plan.width && a.held.Kept? == b.held.Kept? && wholeA == wholeB
                && a.plan.Size() >= b.plan.Size())
  {
    PlacingInRange(items, unit);
    SortMembers(items);
    ToPlaceFacts(items, ByWidth(items), unit);
    OutranksWeak(items, unit);
    SortFacts(ToPlace(items, ByWidth(items), unit), Outranks(items, unit));
    assert !Outranks(items, unit)(PlacingOrder(items, unit)[k], PlacingOrder(items, unit)[j]);
  }
}
