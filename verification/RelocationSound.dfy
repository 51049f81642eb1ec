/** Relocation keeps every plan well placed: nobody shares a GPU, everybody gets exactly what it
    needs, narrow replicas stay inside one unit and wide ones fill whole units. */
module RelocationSound {
  import opened Lists
  import opened Requests
  import opened Divisibility
  import opened StableSort
  import opened GpuUnits
  import opened Placement
  import opened Relocation

  // ----- which units are given away

  function SumAt(vals: seq<nat>, order: seq<nat>): nat
    requires InRange(order, |vals|)
  {
    if order == [] then 0 else SumAt(vals, order[..|order| - 1]) + vals[order[|order| - 1]]
  }

  function Loads(items: seq<Item>): (v: seq<nat>)
    ensures |v| == |items| && forall i :: 0 <= i < |v| ==> v[i] == items[i].plan.load
  {
    seq(|items|, i requires 0 <= i < |items| => items[i].plan.load)
  }

  function Sizes(items: seq<Item>): (v: seq<nat>)
    ensures |v| == |items| && forall i :: 0 <= i < |v| ==> v[i] == items[i].plan.Size()
  {
    seq(|items|, i requires 0 <= i < |items| => items[i].plan.Size())
  }

  function Total(vals: seq<nat>): nat {
    SumAt(vals, UpTo(|vals|))
  }

  lemma {:induction false} InsertSum(vals: seq<nat>, s: seq<nat>, x: nat, above: (nat, nat) -> bool)
    requires InRange(s, |vals|) && x < |vals|
    ensures InRange(Insert(s, x, above), |vals|) && SumAt(vals, Insert(s, x, above)) == SumAt(vals, s) + vals[x]
    decreases |s|
  {
    if s != [] && above(x, s[|s| - 1]) {
      InsertSum(vals, s[..|s| - 1], x, above);
      var f := Insert(s[..|s| - 1], x, above);
      assert (f + [s[|s| - 1]])[..|f|] == f;
    } else {
      assert (s + [x])[..|s|] == s;
    }
  }

  /** Sums do not depend on the order. */
  lemma {:induction false} SortSum(vals: seq<nat>, s: seq<nat>, above: (nat, nat) -> bool)
    requires InRange(s, |vals|)
    ensures InRange(SortBy(s, above), |vals|) && SumAt(vals, SortBy(s, above)) == SumAt(vals, s)
    decreases |s|
  {
    if s != [] {
      SortSum(vals, s[..|s| - 1], above);
      InsertSum(vals, SortBy(s[..|s| - 1], above), s[|s| - 1], above);
    }
  }

  ghost predicate HeldByStayer(items: seq<Item>, order: seq<nat>, unit: nat, u: nat)
    requires InRange(order, |items|) && unit >= 1
  {
    exists i :: i in order && KeptWide(items[i], unit) && Touches(HeldGpus(items[i]), u, unit)
  }

  /** A unit is too dear exactly when a wide plan that stays holds part of it. */
  lemma {:induction false} CostIff(items: seq<Item>, order: seq<nat>, unit: nat, u: nat)
    requires unit >= 1 && InRange(order, |items|) && SumAt(Loads(items), order) < TOO_DEAR
    ensures CostOf(items, order, unit, u) < TOO_DEAR <==> !HeldByStayer(items, order, unit, u)
    ensures 0 <= CostOf(items, order, unit, u)
    ensures !HeldByStayer(items, order, unit, u) ==> CostOf(items, order, unit, u) <= SumAt(Loads(items), order)
    decreases |order|
  {
    if order != [] {
      var front, last := order[..|order| - 1], order[|order| - 1];
      CostIff(items, front, unit, u);
      assert forall i :: i in order <==> i in front || i == last;
    }
  }

  lemma {:induction false} AffordableFacts(costs: seq<int>, us: seq<nat>)
    requires InRange(us, |costs|) && Distinct(us)
    ensures InRange(Affordable(costs, us), |costs|) && Distinct(Affordable(costs, us))
    ensures forall u :: u in Affordable(costs, us) <==> u in us && costs[u] < TOO_DEAR
  {
    if us != [] {
      AffordableFacts(costs, us[1..]);
      assert forall u :: u in us <==> u == us[0] || u in us[1..];
      assert us[0] !in us[1..];
    }
  }

  lemma {:induction false} UnitOrderFacts(costs: seq<int>)
    ensures InRange(UnitOrder(costs), |costs|) && Distinct(UnitOrder(costs))
    ensures forall u: nat :: u in UnitOrder(costs) <==> u < |costs| && costs[u] < TOO_DEAR
  {
    CheaperMembers(costs);
    var s := SortBy(UpTo(|costs|), Cheaper(costs));
    AffordableFacts(costs, s);
    forall u: nat ensures u in s <==> u < |costs| {
    }
  }

  /** The units of the candidates: those no staying wide plan touches. */
  lemma {:induction false} UnitsFree(items: seq<Item>, unit: nat, units: nat)
    requires unit >= 1 && InRange(ByWidth(items), |items|) && SumAt(Loads(items), ByWidth(items)) < TOO_DEAR
    ensures var us := UnitOrder(Costs(items, unit, units));
            && InRange(us, units) && Distinct(us)
            && forall u: nat :: u in us <==> u < units && !HeldByStayer(items, ByWidth(items), unit, u)
  {
    var costs := Costs(items, unit, units);
    UnitOrderFacts(costs);
    forall u: nat | u < units ensures costs[u] < TOO_DEAR <==> !HeldByStayer(items, ByWidth(items), unit, u) {
      CostIff(items, ByWidth(items), unit, u);
    }
  }

  // ----- the candidates come in whole units

  lemma {:induction false} ArrangedFacts(u: nat, unit: nat, occupied: set<nat>)
    requires unit >= 1
    ensures var c := Arranged(u, unit, occupied);
            Distinct(c) && |c| == unit && InUnit(c, u, unit) && forall g: nat :: g in c <==> g / unit == u
  {
    var s, c := UnitGpus(u, unit), Arranged(u, unit, occupied);
    SortFacts(s, Freer(occupied));
    forall g: nat ensures g in s <==> g / unit == u {
      UnitMember(g, u, unit);
      if u * unit <= g < u * unit + unit {
        assert s[g - u * unit] == g;
      }
    }
  }

  lemma {:induction false} ChunksDealt(us: seq<nat>, unit: nat, occupied: set<nat>)
    requires unit >= 1 && Distinct(us)
    ensures Dealt(Chunks(us, unit, occupied), us, unit, unit)
    ensures forall g: nat :: g in Flat(Chunks(us, unit, occupied)) <==> g / unit in us
    ensures |Flat(Chunks(us, unit, occupied))| == |us| * unit
    decreases |us|
  {
    if us != [] {
      ArrangedFacts(us[0], unit, occupied);
      ChunksDealt(us[1..], unit, occupied);
      MultipleDivides(1, unit);
      var c, cs := Arranged(us[0], unit, occupied), Chunks(us[1..], unit, occupied);
      DealtCons(c, cs, us, unit, unit);
      assert forall u :: u in us <==> u == us[0] || u in us[1..];
      MulNext(|us| - 1, unit);
    }
  }

  // ----- enough candidates for everybody

  lemma {:induction false} DemandAppend(items: seq<Item>, it: Item)
    ensures Demand(items + [it]) == Demand(items) + it.plan.Size()
  {
    if items == [] {
      assert items + [it] == [it];
    } else {
      DemandAppend(items[1..], it);
      assert (items + [it])[1..] == items[1..] + [it];
    }
  }

  lemma {:induction false} DemandIsSum(items: seq<Item>, order: seq<nat>)
    requires InRange(order, |items|)
    ensures Demand(Gather(items, order)) == SumAt(Sizes(items), order)
    decreases |order|
  {
    if order != [] {
      var front, last := order[..|order| - 1], order[|order| - 1];
      DemandIsSum(items, front);
      assert Gather(items, order) == Gather(items, front) + [items[last]];
      DemandAppend(Gather(items, front), items[last]);
    }
  }

  lemma {:induction false} SumAppend(vals: seq<nat>, s: seq<nat>, x: nat)
    requires InRange(s, |vals|) && x < |vals|
    ensures InRange(s + [x], |vals|) && SumAt(vals, s + [x]) == SumAt(vals, s) + vals[x]
  {
    assert (s + [x])[..|s|] == s;
  }

  lemma {:induction false} SplitSum(items: seq<Item>, order: seq<nat>, unit: nat)
    requires InRange(order, |items|)
    ensures InRange(ToPlace(items, order, unit), |items|) && InRange(Staying(items, order, unit), |items|)
    ensures SumAt(Sizes(items), ToPlace(items, order, unit)) + SumAt(Sizes(items), Staying(items, order, unit))
            == SumAt(Sizes(items), order)
    decreases |order|
  {
    if order != [] {
      var front, last := order[..|order| - 1], order[|order| - 1];
      var t, s, v := ToPlace(items, front, unit), Staying(items, front, unit), Sizes(items);
      SplitSum(items, front, unit);
      if KeptWide(items[last], unit) {
        SumAppend(v, s, last);
        assert ToPlace(items, order, unit) == t;
      } else {
        SumAppend(v, t, last);
        assert Staying(items, order, unit) == s;
      }
    }
  }

  /** What staying wide plans hold is exact and not shared. */
  ghost predicate StayersSound(items: seq<Item>, unit: nat)
    requires unit >= 1
  {
    && (forall i :: 0 <= i < |items| && KeptWide(items[i], unit) ==>
          Housed(HeldGpus(items[i]), items[i].plan, unit) && HeldGpus(items[i]) == items[i].held.gpus)
    && (forall i, j :: 0 <= i < |items| && 0 <= j < |items| && i != j ==>
          KeptWide(items[i], unit) && KeptWide(items[j], unit) ==> Apart(HeldGpus(items[i]), HeldGpus(items[j])))
  }

  lemma {:induction false} OccupiedSize(items: seq<Item>, order: seq<nat>, unit: nat)
    requires unit >= 1 && StayersSound(items, unit) && InRange(order, |items|) && Distinct(order)
    requires forall i :: i in order ==> KeptWide(items[i], unit)
    ensures |Occupied(items, order)| == SumAt(Sizes(items), order)
    ensures forall g :: g in Occupied(items, order) <==> exists i :: i in order && g in HeldGpus(items[i])
    decreases |order|
  {
    if order != [] {
      var front, last := order[..|order| - 1], order[|order| - 1];
      assert forall i :: i in order <==> i in front || i == last;
      assert last !in front && last in order;
      OccupiedSize(items, front, unit);
      DistinctSize(HeldGpus(items[last]));
      assert Occupied(items, front) !! Members(HeldGpus(items[last]));
    }
  }

  /** The replica GPU k belongs to. */
  lemma {:induction false} GroupOf(gpus: seq<nat>, width: nat, copies: nat, k: nat) returns (i: nat)
    requires |gpus| == width * copies && k < |gpus|
    ensures i < copies && gpus[k] in Group(gpus, width, i) && forall g :: g in Group(gpus, width, i) ==> g in gpus
  {
    assert width >= 1;
    MultipleDivides(copies, width);
    var j := MultipleBelow(width, k, width * copies);
    i := j / width;
    assert j == i * width;
    if i >= copies {
      MulMono(copies, i, width);
      assert false;
    }
    GroupIs(gpus, width, copies, i);
    assert Group(gpus, width, i)[k - j] == gpus[k];
  }

  /** A wide plan that is placed well holds whole units. */
  lemma {:induction false} WideHoldsWhole(gpus: seq<nat>, p: Plan, unit: nat)
    requires unit >= 1 && Housed(gpus, p, unit) && p.width >= unit
    ensures WholeUnits(gpus, unit)
  {
    forall g: nat, h: nat | g in gpus && h / unit == g / unit ensures h in gpus {
      var k :| 0 <= k < |gpus| && gpus[k] == g;
      var i := GroupOf(gpus, p.width, p.copies, k);
      WholeHas(Group(gpus, p.width, i), unit, g, h);
    }
  }

  // ----- the whole relocation

  /** Of two worker counts one divides the other, as for powers of two. */
  ghost predicate WidthsChain(items: seq<Item>) {
    forall i, j :: 0 <= i < |items| && 0 <= j < |items| && 1 <= items[i].plan.width <= items[j].plan.width ==>
      Divides(items[i].plan.width, items[j].plan.width)
  }

  /** What a relocation starts from. Narrow plans that keep running may hold anything: the loop
      looks at what they hold. */
  ghost predicate Relocatable(items: seq<Item>, tot: nat, unit: nat) {
    && unit >= 1 && Divides(unit, tot)
    && (forall i :: 0 <= i < |items| ==> ItemOk(items[i], unit))
    && WidthsChain(items)
    && Total(Sizes(items)) <= tot && Total(Loads(items)) < TOO_DEAR
    && StayersSound(items, unit)
    && (forall i, g :: 0 <= i < |items| && KeptWide(items[i], unit) && g in HeldGpus(items[i]) ==> g < tot)
  }

  lemma {:induction false} UnitsInRange(g: nat, tot: nat, unit: nat)
    requires unit >= 1 && Divides(unit, tot)
    ensures g < tot <==> g / unit < tot / unit
  {
    var q := g / unit;
    assert g == q * unit + g % unit && tot == tot / unit * unit;
    MulNext(q, unit);
    if q < tot / unit {
      MulMono(q + 1, tot / unit, unit);
    } else {
      MulMono(tot / unit, q, unit);
    }
  }

  /** A wide plan that stays holds GPU g. */
  ghost predicate HeldWide(items: seq<Item>, unit: nat, g: nat) {
    exists i: nat :: i < |items| && KeptWide(items[i], unit) && g in HeldGpus(items[i])
  }

  /** The candidates are exactly the GPUs no staying wide plan holds. */
  lemma {:induction false} CandidateIff(items: seq<Item>, tot: nat, unit: nat, g: nat)
    requires Relocatable(items, tot, unit)
    ensures g in Candidates(items, tot, unit) <==> g < tot && !HeldWide(items, unit, g)
  {
    UnitsInRange(g, tot, unit);
    CandidateUnits(items, tot, unit, g);
    HeldIffTouched(items, unit, g);
  }

  lemma {:induction false} CandidateUnits(items: seq<Item>, tot: nat, unit: nat, g: nat)
    requires Relocatable(items, tot, unit)
    ensures InRange(ByWidth(items), |items|)
    ensures g in Candidates(items, tot, unit) <==>
              g / unit < tot / unit && !HeldByStayer(items, ByWidth(items), unit, g / unit)
  {
    SortMembers(items);
    var u: nat := g / unit;
    var units: nat := tot / unit;
    var us := UnitOrder(Costs(items, unit, units));
    SortSum(Loads(items), UpTo(|items|), Narrower(items));
    UnitsFree(items, unit, units);
    assert u in us <==> u < units && !HeldByStayer(items, ByWidth(items), unit, u);
    CandidateOf(items, tot, unit, g);
  }

  lemma {:induction false} CandidateOf(items: seq<Item>, tot: nat, unit: nat, g: nat)
    requires unit >= 1
    ensures g in Candidates(items, tot, unit) <==> g / unit in UnitOrder(Costs(items, unit, tot / unit))
  {
    SortMembers(items);
    UnitOrderFacts(Costs(items, unit, tot / unit));
    ChunksDealt(UnitOrder(Costs(items, unit, tot / unit)), unit, Occupied(items, ByWidth(items)));
  }

  lemma {:induction false} HeldIffTouched(items: seq<Item>, unit: nat, g: nat)
    requires unit >= 1 && StayersSound(items, unit)
    ensures InRange(ByWidth(items), |items|)
    ensures HeldByStayer(items, ByWidth(items), unit, g / unit)
            <==> HeldWide(items, unit, g)
  {
    SortMembers(items);
    var o := ByWidth(items);
    if HeldByStayer(items, o, unit, g / unit) {
      var i :| i in o && KeptWide(items[i], unit) && Touches(HeldGpus(items[i]), g / unit, unit);
      var h :| h in HeldGpus(items[i]) && h / unit == g / unit;
      WideHoldsWhole(HeldGpus(items[i]), items[i].plan, unit);
      WholeHas(HeldGpus(items[i]), unit, h, g);
    }
    if i: nat :| i < |items| && KeptWide(items[i], unit) && g in HeldGpus(items[i]) {
      assert i in o && Touches(HeldGpus(items[i]), g / unit, unit);
    }
  }

  /** There are as many candidates as the plans to be placed need, or more. */
  lemma {:induction false} EnoughCandidates(items: seq<Item>, tot: nat, unit: nat)
    requires Relocatable(items, tot, unit)
    ensures InRange(PlacingOrder(items, unit), |items|)
    ensures Demand(Gather(items, PlacingOrder(items, unit))) <= |Candidates(items, tot, unit)|
  {
    SortMembers(items);
    PlacingInRange(items, unit);
    var o := ByWidth(items);
    ToPlaceFacts(items, o, unit);
    SplitSum(items, o, unit);
    SortSum(Sizes(items), UpTo(|items|), Narrower(items));
    SortSum(Sizes(items), ToPlace(items, o, unit), Outranks(items, unit));
    DemandIsSum(items, PlacingOrder(items, unit));
    CandidatesCount(items, tot, unit);
  }

  lemma {:induction false} CandidatesCount(items: seq<Item>, tot: nat, unit: nat)
    requires Relocatable(items, tot, unit)
    ensures InRange(ByWidth(items), |items|) && InRange(Staying(items, ByWidth(items), unit), |items|)
    ensures |Candidates(items, tot, unit)| + SumAt(Sizes(items), Staying(items, ByWidth(items), unit)) == tot
  {
    SortMembers(items);
    var o := ByWidth(items);
    var st := Staying(items, o, unit);
    StayingIff(items, unit);
    OccupiedSize(items, st, unit);
    CandidatesDistinct(items, tot, unit);
    var held, cand := Occupied(items, st), Members(Candidates(items, tot, unit));
    DistinctSize(Candidates(items, tot, unit));
    forall g: nat ensures g in cand <==> g in Range(0, tot) && g !in held {
      CandidateIff(items, tot, unit, g);
      HeldMember(items, st, unit, g);
    }
    forall g | g in held ensures g in Range(0, tot) {
      HeldMember(items, st, unit, g);
    }
    Complement(held, cand, Range(0, tot));
  }

  lemma {:induction false} StayingIff(items: seq<Item>, unit: nat)
    ensures InRange(ByWidth(items), |items|) && InRange(Staying(items, ByWidth(items), unit), |items|)
    ensures Distinct(Staying(items, ByWidth(items), unit))
    ensures forall i: nat :: i in Staying(items, ByWidth(items), unit) <==> i < |items| && KeptWide(items[i], unit)
  {
    SortMembers(items);
    ToPlaceFacts(items, ByWidth(items), unit);
    SplitSum(items, ByWidth(items), unit);
    forall i: nat ensures i in ByWidth(items) <==> i < |items| {
    }
  }

  lemma {:induction false} Complement(held: set<nat>, cand: set<nat>, all: set<nat>)
    requires held <= all && forall g :: g in cand <==> g in all && g !in held
    ensures |cand| + |held| == |all|
  {
    assert cand == all - held;
    assert all == held + cand;
  }

  lemma {:induction false} HeldMember(items: seq<Item>, st: seq<nat>, unit: nat, g: nat)
    requires unit >= 1 && StayersSound(items, unit) && InRange(st, |items|) && Distinct(st)
    requires forall i: nat :: i in st <==> i < |items| && KeptWide(items[i], unit)
    ensures g in Occupied(items, st) <==> HeldWide(items, unit, g)
  {
    OccupiedSize(items, st, unit);
  }

  lemma {:induction false} CandidatesDistinct(items: seq<Item>, tot: nat, unit: nat)
    requires unit >= 1
    ensures Distinct(Candidates(items, tot, unit))
  {
    SortMembers(items);
    var us, occ := UnitOrder(Costs(items, unit, tot / unit)), Occupied(items, ByWidth(items));
    UnitOrderFacts(Costs(items, unit, tot / unit));
    ChunksDealt(us, unit, occ);
    FlatDistinct(Chunks(us, unit, occ), us, unit, unit);
  }

  // ----- who gets what

  lemma {:induction false} WriteBackAt(base: seq<seq<nat>>, order: seq<nat>, ps: seq<Placing>, k: nat)
    requires |ps| == |order| && InRange(order, |base|) && Distinct(order) && k < |order|
    ensures WriteBack(base, order, ps)[order[k]] == ps[k].gpus
    decreases |order|
  {
    var last := |order| - 1;
    if k < last {
      WriteBackAt(base, order[..last], ps[..last], k);
    }
  }

  lemma {:induction false} WriteBackElse(base: seq<seq<nat>>, order: seq<nat>, ps: seq<Placing>, i: nat)
    requires |ps| == |order| && InRange(order, |base|) && i < |base| && i !in order
    ensures WriteBack(base, order, ps)[i] == base[i]
    decreases |order|
  {
    if order != [] {
      var last := |order| - 1;
      assert order[last] in order;
      WriteBackElse(base, order[..last], ps[..last], i);
    }
  }

  lemma {:induction false} PortionDivides(p: Plan, q: Plan, unit: nat)
    requires PlanOk(p, unit) && PlanOk(q, unit) && p.width >= q.width && Divides(q.width, p.width)
    ensures Divides(q.Portion(unit), p.Portion(unit)) && p.Portion(unit) >= 1 && Divides(p.Portion(unit), unit)
  {
    MultipleDivides(1, unit);
  }

  /** The placing loop starts from whole units and goes to ever smaller portions. */
  lemma {:induction false} PlacingReady(items: seq<Item>, tot: nat, unit: nat)
    requires Relocatable(items, tot, unit)
    ensures InRange(PlacingOrder(items, unit), |items|)
    ensures PortionsChain(Gather(items, PlacingOrder(items, unit)), unit)
  {
    PlacingDescends(items, unit);
    var p := PlacingOrder(items, unit);
    var r := Gather(items, p);
    forall k | 0 <= k < |r| ensures r[k].plan.Portion(unit) >= 1 {
      assert ItemOk(items[p[k]], unit);
    }
    forall j, k | 0 <= j < k < |r| ensures Divides(r[k].plan.Portion(unit), r[j].plan.Portion(unit)) {
      assert ItemOk(items[p[j]], unit) && ItemOk(items[p[k]], unit);
      PortionDivides(r[j].plan, r[k].plan, unit);
    }
  }

  /** Everything placed by the loop. */
  lemma {:induction false} PlacedSound(items: seq<Item>, tot: nat, unit: nat)
    requires Relocatable(items, tot, unit)
    ensures InRange(PlacingOrder(items, unit), |items|)
    ensures var order := PlacingOrder(items, unit);
            var ps := Reassign(Gather(items, order), Candidates(items, tot, unit), unit);
            && (forall k :: 0 <= k < |ps| ==> Housed(ps[k].gpus, items[order[k]].plan, unit))
            && (forall k, g :: 0 <= k < |ps| && g in ps[k].gpus ==> g in Candidates(items, tot, unit))
            && (forall j, k :: 0 <= j < k < |ps| ==> Apart(ps[j].gpus, ps[k].gpus))
  {
    PlacingReady(items, tot, unit);
    EnoughCandidates(items, tot, unit);
    SortMembers(items);
    var order, us := PlacingOrder(items, unit), UnitOrder(Costs(items, unit, tot / unit));
    var r, chunks := Gather(items, order), Chunks(us, unit, Occupied(items, ByWidth(items)));
    UnitOrderFacts(Costs(items, unit, tot / unit));
    ChunksDealt(us, unit, Occupied(items, ByWidth(items)));
    if r != [] {
      assert ItemOk(items[order[0]], unit);
      MultipleDivides(1, unit);
      DealtFiner(chunks, us, unit, unit, r[0].plan.Portion(unit));
    }
    ReassignSound(r, chunks, us, unit);
  }

  lemma {:induction false} CountFull(gpus: seq<nat>, u: nat, unit: nat)
    requires unit >= 1 && Distinct(gpus)
    ensures CountIn(gpus, u, unit) == |Members(gpus) * UnitSet(u, unit)|
  {
    if gpus != [] {
      var g, rest := gpus[0], gpus[1..];
      CountFull(rest, u, unit);
      assert forall h :: h in gpus <==> h == g || h in rest;
      CountOne(g, Members(rest), Members(gpus), UnitSet(u, unit));
    } else {
      assert Members(gpus) * UnitSet(u, unit) == {};
    }
  }

  lemma {:induction false} CountOne(g: nat, rest: set<nat>, all: set<nat>, r: set<nat>)
    requires g !in rest && forall h :: h in all <==> h == g || h in rest
    ensures |all * r| == |rest * r| + (if g in r then 1 else 0)
  {
    assert all * r == if g in r then rest * r + {g} else rest * r;
  }

  /** The assertion about staying wide plans never fails. */
  lemma {:induction false} WholeFills(gpus: seq<nat>, unit: nat)
    requires unit >= 1 && Distinct(gpus) && WholeUnits(gpus, unit)
    ensures FillsUnits(gpus, unit)
  {
    forall g | g in gpus ensures CountIn(gpus, g / unit, unit) == unit {
      var u: nat := g / unit;
      CountFull(gpus, u, unit);
      forall h | h in UnitSet(u, unit) ensures h in gpus {
        WholeHas(gpus, unit, g, h);
      }
      assert Members(gpus) * UnitSet(u, unit) == UnitSet(u, unit);
    }
  }

  lemma {:induction false} NeverBroken(items: seq<Item>, unit: nat)
    requires unit >= 1 && StayersSound(items, unit)
    ensures StayersFill(items, unit)
  {
    forall i | 0 <= i < |items| && KeptWide(items[i], unit) ensures FillsUnits(HeldGpus(items[i]), unit) {
      WideHoldsWhole(HeldGpus(items[i]), items[i].plan, unit);
      WholeFills(HeldGpus(items[i]), unit);
    }
  }

  /** Relocation fails exactly when wide plans that stay touch every unit. */
  lemma {:induction false} NoUnitsIff(items: seq<Item>, tot: nat, unit: nat)
    requires Relocatable(items, tot, unit)
    ensures Relocate(items, tot, unit) != UnitBroken
    ensures Relocate(items, tot, unit) == NoUnits <==> forall g: nat :: g < tot ==> HeldWide(items, unit, g)
  {
    NeverBroken(items, unit);
    var us := UnitOrder(Costs(items, unit, tot / unit));
    if us == [] {
      forall g: nat | g < tot ensures HeldWide(items, unit, g) {
        CandidateIff(items, tot, unit, g);
        CandidateOf(items, tot, unit, g);
      }
    } else {
      UnitOrderFacts(Costs(items, unit, tot / unit));
      assert us[0] in us;
      var g: nat := us[0] * unit;
      MultipleDivides(us[0], unit);
      CandidateIff(items, tot, unit, g);
      CandidateOf(items, tot, unit, g);
    }
  }

  /** Put in numbers: it fails exactly when the staying wide plans together are as large as the machine. */
  lemma {:induction false} NoRoomIff(items: seq<Item>, tot: nat, unit: nat)
    requires Relocatable(items, tot, unit)
    ensures InRange(ByWidth(items), |items|) && InRange(Staying(items, ByWidth(items), unit), |items|)
    ensures Relocate(items, tot, unit) == NoUnits <==> SumAt(Sizes(items), Staying(items, ByWidth(items), unit)) == tot
  {
    NoUnitsIff(items, tot, unit);
    CandidatesCount(items, tot, unit);
    var cand := Candidates(items, tot, unit);
    if cand == [] {
      forall g: nat | g < tot ensures HeldWide(items, unit, g) {
        CandidateIff(items, tot, unit, g);
      }
    } else {
      assert cand[0] in cand;
      CandidateIff(items, tot, unit, cand[0]);
    }
  }

  /** After a relocation: exact, well placed, inside the machine, pairwise disjoint. */
  ghost predicate AllHoused(items: seq<Item>, gs: seq<seq<nat>>, tot: nat, unit: nat)
    requires unit >= 1
  {
    && |gs| == |items|
    && (forall i :: 0 <= i < |gs| ==> Housed(gs[i], items[i].plan, unit))
    && (forall i, g :: 0 <= i < |gs| && g in gs[i] ==> g < tot)
    && (forall i, j :: 0 <= i < |gs| && 0 <= j < |gs| && i != j ==> Apart(gs[i], gs[j]))
  }

  /** A plan stays where it was, or its GPUs were candidates. */
  lemma {:induction false} Source(items: seq<Item>, tot: nat, unit: nat, i: nat) returns (k: nat)
    requires Relocatable(items, tot, unit) && Relocate(items, tot, unit).Placed? && i < |items|
    ensures InRange(PlacingOrder(items, unit), |items|) && Distinct(PlacingOrder(items, unit))
    ensures var order := PlacingOrder(items, unit);
            var ps := Reassign(Gather(items, order), Candidates(items, tot, unit), unit);
            var gs := Relocate(items, tot, unit).gpus;
            && |gs| == |items|
            && if KeptWide(items[i], unit) then gs[i] == HeldGpus(items[i])
               else k < |order| && order[k] == i && gs[i] == ps[k].gpus
  {
    PlacingInRange(items, unit);
    var order := PlacingOrder(items, unit);
    var ps := Reassign(Gather(items, order), Candidates(items, tot, unit), unit);
    k := 0;
    if KeptWide(items[i], unit) {
      WriteBackElse(Base(items), order, ps, i);
    } else {
      k :| k < |order| && order[k] == i;
      WriteBackAt(Base(items), order, ps, k);
    }
  }

  lemma {:induction false} OneHoused(items: seq<Item>, tot: nat, unit: nat, i: nat)
    requires Relocatable(items, tot, unit) && Relocate(items, tot, unit).Placed? && i < |items|
    ensures var gs := Relocate(items, tot, unit).gpus;
            && |gs| == |items| && Housed(gs[i], items[i].plan, unit) && (forall g :: g in gs[i] ==> g < tot)
            && (KeptWide(items[i], unit) ==> gs[i] == items[i].held.gpus)
  {
    var k := Source(items, tot, unit, i);
    if !KeptWide(items[i], unit) {
      MovedHoused(items, tot, unit, k);
    }
  }

  lemma {:induction false} MovedHoused(items: seq<Item>, tot: nat, unit: nat, k: nat)
    requires Relocatable(items, tot, unit)
    requires InRange(PlacingOrder(items, unit), |items|) && k < |PlacingOrder(items, unit)|
    ensures var ps := Reassign(Gather(items, PlacingOrder(items, unit)), Candidates(items, tot, unit), unit);
            && Housed(ps[k].gpus, items[PlacingOrder(items, unit)[k]].plan, unit)
            && forall g :: g in ps[k].gpus ==> g < tot
  {
    var ps := Reassign(Gather(items, PlacingOrder(items, unit)), Candidates(items, tot, unit), unit);
    PlacedSound(items, tot, unit);
    forall g | g in ps[k].gpus ensures g < tot {
      CandidateIff(items, tot, unit, g);
    }
  }

  lemma {:induction false} PairApart(items: seq<Item>, tot: nat, unit: nat, i: nat, j: nat)
    requires Relocatable(items, tot, unit) && Relocate(items, tot, unit).Placed?
    requires i < |items| && j < |items| && i != j
    ensures var gs := Relocate(items, tot, unit).gpus; |gs| == |items| && Apart(gs[i], gs[j])
  {
    var k := Source(items, tot, unit, i);
    var l := Source(items, tot, unit, j);
    if KeptWide(items[i], unit) && KeptWide(items[j], unit) {
    } else if KeptWide(items[i], unit) {
      MovedApart(items, tot, unit, i, l);
    } else if KeptWide(items[j], unit) {
      MovedApart(items, tot, unit, j, k);
    } else {
      BothMovedApart(items, tot, unit, k, l);
    }
  }

  lemma {:induction false} BothMovedApart(items: seq<Item>, tot: nat, unit: nat, k: nat, l: nat)
    requires Relocatable(items, tot, unit) && InRange(PlacingOrder(items, unit), |items|)
    requires k < |PlacingOrder(items, unit)| && l < |PlacingOrder(items, unit)| && k != l
    ensures var ps := Reassign(Gather(items, PlacingOrder(items, unit)), Candidates(items, tot, unit), unit);
            Apart(ps[k].gpus, ps[l].gpus)
  {
    PlacedSound(items, tot, unit);
    var ps := Reassign(Gather(items, PlacingOrder(items, unit)), Candidates(items, tot, unit), unit);
    if k < l {
      assert Apart(ps[k].gpus, ps[l].gpus);
    } else {
      assert Apart(ps[l].gpus, ps[k].gpus);
    }
  }

  /** What is handed out is not held by a plan that stays. */
  lemma {:induction false} MovedApart(items: seq<Item>, tot: nat, unit: nat, i: nat, l: nat)
    requires Relocatable(items, tot, unit) && i < |items| && KeptWide(items[i], unit)
    requires InRange(PlacingOrder(items, unit), |items|) && l < |PlacingOrder(items, unit)|
    ensures var ps := Reassign(Gather(items, PlacingOrder(items, unit)), Candidates(items, tot, unit), unit);
            Apart(HeldGpus(items[i]), ps[l].gpus) && Apart(ps[l].gpus, HeldGpus(items[i]))
  {
    var ps := Reassign(Gather(items, PlacingOrder(items, unit)), Candidates(items, tot, unit), unit);
    PlacedSound(items, tot, unit);
    forall g | g in ps[l].gpus ensures g !in HeldGpus(items[i]) {
      CandidateIff(items, tot, unit, g);
    }
  }

  /** Relocation is sound: whatever was running where, afterwards every plan has exactly the GPUs it
      needs, no two share one, narrow replicas lie inside one unit, wide ones fill whole units, and
      the wide plans that keep running have not moved. */
  lemma {:induction false} RelocationHouses(items: seq<Item>, tot: nat, unit: nat)
    requires Relocatable(items, tot, unit) && Relocate(items, tot, unit).Placed?
    ensures AllHoused(items, Relocate(items, tot, unit).gpus, tot, unit)
    ensures forall i :: 0 <= i < |items| && KeptWide(items[i], unit) ==>
              Relocate(items, tot, unit).gpus[i] == items[i].held.gpus
  {
    var gs := Relocate(items, tot, unit).gpus;
    assert |gs| == |items|;
    forall i: nat | i < |gs|
      ensures Housed(gs[i], items[i].plan, unit) && (forall g :: g in gs[i] ==> g < tot)
      ensures KeptWide(items[i], unit) ==> gs[i] == items[i].held.gpus
    {
      OneHoused(items, tot, unit, i);
    }
    forall i: nat, j: nat | i < |gs| && j < |gs| && i != j ensures Apart(gs[i], gs[j]) {
      PairApart(items, tot, unit, i, j);
    }
  }
}
