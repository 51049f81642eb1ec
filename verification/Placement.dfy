/** Handing GPUs to execution plans so that tensor-parallel groups stay inside fully connected units. */
module Placement {
  import opened Lists
  import opened Requests
  import opened Divisibility
  import opened GpuUnits

  /** An execution plan: `copies` data-parallel replicas of `width` tensor-parallel workers each.
      `other` stands for the remaining parts of the plan key, `inputs` for the models whose output
      the model reads, `load` for the cost of loading its weights. */
  datatype Plan = Plan(model: nat, width: nat, copies: nat, other: nat, inputs: set<nat>, load: nat) {
    function Size(): nat { width * copies }

    /** GPUs that have to be neighbours: a whole replica, or a whole unit for wide replicas. */
    function Portion(unit: nat): nat { if width >= unit then unit else width }
  }

  datatype Held = Fresh | Kept(gpus: seq<nat>)
  datatype Item = Item(plan: Plan, held: Held)

  /** What one plan gets, what is left, and whether a plan that was running has to move. */
  datatype Placing = Placing(gpus: seq<nat>, rest: seq<nat>, moved: bool)

  function Take<T>(s: seq<T>, n: nat): seq<T> {
    if n <= |s| then s[..n] else s
  }

  function Drop<T>(s: seq<T>, n: nat): seq<T> {
    if n <= |s| then s[n..] else []
  }

  /** The GPUs of replica i. */
  function Group(gpus: seq<nat>, width: nat, i: nat): seq<nat> {
    Take(Drop(gpus, i * width), width)
  }

  function Least(s: seq<nat>): nat
    requires s != []
  {
    if |s| == 1 then s[0] else if s[0] <= Least(s[1..]) then s[0] else Least(s[1..])
  }

  function Greatest(s: seq<nat>): nat
    requires s != []
  {
    if |s| == 1 then s[0] else if s[0] >= Greatest(s[1..]) then s[0] else Greatest(s[1..])
  }

  /** The test on the smallest and the largest GPU number of a replica. */
  predicate EndsTogether(s: seq<nat>, unit: nat)
    requires unit >= 1
  {
    s == [] || Least(s) / unit == Greatest(s) / unit
  }

  predicate CanKeep(it: Item, cand: seq<nat>, unit: nat)
    requires unit >= 1
  {
    && it.held.Kept? && it.plan.width < unit
    && var gpus := Take(it.held.gpus, it.plan.Size());
       && (forall g :: g in gpus ==> g in cand)
       && (forall i: nat :: i < it.plan.copies ==> EndsTogether(Group(gpus, it.plan.width, i), unit))
  }

  function Place(it: Item, cand: seq<nat>, unit: nat): Placing
    requires unit >= 1
  {
    var n := it.plan.Size();
    if CanKeep(it, cand, unit) then Placing(Take(it.held.gpus, n), Without(cand, Take(it.held.gpus, n)), false)
    else Placing(Take(cand, n), Drop(cand, n), it.held.Kept?)
  }

  /** The loop that hands out the candidate GPUs. */
  function Reassign(items: seq<Item>, cand: seq<nat>, unit: nat): (ps: seq<Placing>)
    requires unit >= 1
    ensures |ps| == |items|
  {
    if items == [] then []
    else
      var p := Place(items[0], cand, unit);
      [p] + Reassign(items[1..], p.rest, unit)
  }

  function Demand(items: seq<Item>): nat {
    if items == [] then 0 else items[0].plan.Size() + Demand(items[1..])
  }

  // ----- what is promised

  /** Narrow replicas lie inside one unit, wide ones are made of whole units. */
  ghost predicate Local(gpus: seq<nat>, p: Plan, unit: nat)
    requires unit >= 1
  {
    forall i: nat :: i < p.copies ==>
      if p.width >= unit then WholeUnits(Group(gpus, p.width, i), unit) else OneUnit(Group(gpus, p.width, i), unit)
  }

  /** Exactly as many GPUs as the plan needs, all different, placed well. */
  ghost predicate Housed(gpus: seq<nat>, p: Plan, unit: nat)
    requires unit >= 1
  {
    |gpus| == p.Size() && Distinct(gpus) && Local(gpus, p, unit)
  }

  ghost predicate Apart(a: seq<nat>, b: seq<nat>) {
    forall g :: g in a ==> g !in b
  }

  /** Worker counts that fit the unit: one divides the other. */
  ghost predicate PlanOk(p: Plan, unit: nat) {
    && unit >= 1 && p.width >= 1 && p.copies >= 1
    && (if p.width >= unit then Divides(unit, p.width) else Divides(p.width, unit))
  }

  /** A plan that was running holds exactly the GPUs it needs. */
  ghost predicate ItemOk(it: Item, unit: nat) {
    PlanOk(it.plan, unit) && (it.held.Kept? ==> |it.held.gpus| == it.plan.Size() && Distinct(it.held.gpus))
  }

  // ----- small facts

  lemma {:induction false} EndsBound(s: seq<nat>)
    requires s != []
    ensures Least(s) in s && Greatest(s) in s
    ensures forall g :: g in s ==> Least(s) <= g <= Greatest(s)
  {
    if |s| > 1 {
      EndsBound(s[1..]);
      forall g | g in s ensures g == s[0] || g in s[1..] {
      }
    }
  }

  lemma {:induction false} DivMono(a: nat, b: nat, unit: nat)
    requires unit >= 1 && a <= b
    ensures a / unit <= b / unit
  {
    var x, y := a / unit, b / unit;
    assert a == x * unit + a % unit && b == y * unit + b % unit;
    if x > y {
      MulMono(y + 1, x, unit);
      MulNext(y, unit);
      assert false;
    }
  }

  /** The test on the ends is exact: all GPUs between them are in the same unit too. */
  lemma {:induction false} EndsTogetherIff(s: seq<nat>, unit: nat)
    requires unit >= 1
    ensures EndsTogether(s, unit) <==> OneUnit(s, unit)
  {
    if s != [] {
      EndsBound(s);
      forall g | g in s ensures Least(s) / unit <= g / unit <= Greatest(s) / unit {
        DivMono(Least(s), g, unit);
        DivMono(g, Greatest(s), unit);
      }
    }
  }

  /** The GPUs lo, lo + 1, ... */
  function Range(lo: nat, n: nat): (s: set<nat>)
    ensures forall g :: g in s <==> lo <= g < lo + n
    ensures |s| == n
  {
    if n == 0 then {} else Range(lo, n - 1) + {lo + n - 1}
  }

  lemma {:induction false} UnitMember(g: nat, u: nat, unit: nat)
    requires unit >= 1
    ensures g / unit == u <==> u * unit <= g < u * unit + unit
  {
    var q := g / unit;
    assert g == q * unit + g % unit;
    MulNext(u, unit);
    MulNext(q, unit);
    if q < u {
      MulMono(q + 1, u, unit);
    } else if q > u {
      MulMono(u + 1, q, unit);
    }
  }

  lemma {:induction false} SubsetSameSize(a: set<nat>, b: set<nat>)
    requires a <= b && |a| == |b|
    ensures a == b
  {
    assert b == a + (b - a);
    assert |b| == |a| + |b - a|;
  }

  /** The GPUs of unit u. */
  function UnitSet(u: nat, unit: nat): (s: set<nat>)
    requires unit >= 1
    ensures forall g: nat :: g in s <==> g / unit == u
    ensures |s| == unit
  {
    var lo: nat := u * unit;
    var s := Range(lo, unit);
    UnitSetMembers(u, unit);
    s
  }

  lemma {:induction false} UnitSetMembers(u: nat, unit: nat)
    requires unit >= 1 && u * unit >= 0
    ensures forall g: nat :: g in Range(u * unit, unit) <==> g / unit == u
  {
    forall g: nat ensures g in Range(u * unit, unit) <==> g / unit == u {
      UnitMember(g, u, unit);
    }
  }

  /** As many different GPUs of one unit as the unit has are the whole unit. */
  lemma {:induction false} FullUnit(s: seq<nat>, unit: nat)
    requires unit >= 1 && Distinct(s) && |s| == unit && OneUnit(s, unit)
    ensures WholeUnits(s, unit)
  {
    assert s[0] in s;
    var u: nat := s[0] / unit;
    DistinctSize(s);
    SubsetSameSize(Members(s), UnitSet(u, unit));
    forall g: nat, h: nat | g in s && h / unit == g / unit ensures h in s {
      assert h in UnitSet(u, unit);
    }
  }

  lemma {:induction false} WholeHas(s: seq<nat>, unit: nat, g: nat, h: nat)
    requires unit >= 1 && WholeUnits(s, unit) && g in s && h / unit == g / unit
    ensures h in s
  {
  }

  lemma {:induction false} SliceDistinct(s: seq<nat>, i: nat, j: nat)
    requires Distinct(s) && i <= j <= |s|
    ensures Distinct(s[i..j])
  {
  }

  lemma {:induction false} GroupIs(gpus: seq<nat>, width: nat, copies: nat, i: nat)
    requires |gpus| == width * copies && i < copies
    ensures 0 <= i * width && i * width + width <= |gpus|
    ensures Group(gpus, width, i) == gpus[i * width..i * width + width]
  {
    MulMono(i + 1, copies, width);
    MulNext(i, width);
    assert Group(gpus, width, i) == gpus[i * width..][..width];
  }

  // ----- one plan

  /** Replica i of a plan that takes its GPUs from the front. */
  lemma {:induction false} FrontGroupLocal(chunks: seq<seq<nat>>, us: seq<nat>, unit: nat, p: Plan, i: nat)
    requires PlanOk(p, unit) && Dealt(chunks, us, unit, p.Portion(unit)) && p.Size() <= |Flat(chunks)| && i < p.copies
    ensures var g := Group(Take(Flat(chunks), p.Size()), p.width, i);
            if p.width >= unit then WholeUnits(g, unit) else OneUnit(g, unit)
  {
    var cand := Flat(chunks);
    var gpus := cand[..p.Size()];
    GroupIs(gpus, p.width, p.copies, i);
    var at := i * p.width;
    assert Group(gpus, p.width, i) == cand[at..at + p.width];
    MultipleDivides(i, p.width);
    if p.width < unit {
      PortionInOneUnit(chunks, us, unit, p.width, at);
    } else {
      DividesTrans(unit, p.width, at);
      WideGroup(chunks, us, unit, at, p.width);
    }
  }

  lemma {:induction false} WideGroup(chunks: seq<seq<nat>>, us: seq<nat>, unit: nat, at: nat, width: nat)
    requires unit >= 1 && Dealt(chunks, us, unit, unit) && at + width <= |Flat(chunks)|
    requires Divides(unit, at) && Divides(unit, width)
    ensures WholeUnits(Flat(chunks)[at..at + width], unit)
  {
    var cand := Flat(chunks);
    var s := cand[at..at + width];
    forall g: nat, h: nat | g in s && h / unit == g / unit ensures h in s {
      var k :| 0 <= k < |s| && s[k] == g;
      var j := MultipleBelow(unit, k, width);
      DividesSum(unit, at, j);
      var i := UnitPortion(chunks, us, unit, at + j, k - j, h);
      assert s[j + i] == cand[at + j + i] == h;
    }
  }

  lemma {:induction false} MultipleBelow(d: nat, k: nat, n: nat) returns (j: nat)
    requires d >= 1 && k < n && Divides(d, n)
    ensures Divides(d, j) && j <= k && k < j + d && j + d <= n
  {
    j := k / d * d;
    MultipleDivides(k / d, d);
    MultiplesApart(d, j, n);
  }

  /** With a GPU, the portion of size `unit` it is in has the whole unit. */
  lemma {:induction false} UnitPortion(
      chunks: seq<seq<nat>>, us: seq<nat>, unit: nat, at: nat, k: nat, h: nat) returns (i: nat)
    requires unit >= 1 && Dealt(chunks, us, unit, unit) && at + unit <= |Flat(chunks)|
    requires Divides(unit, at) && k < unit && h / unit == Flat(chunks)[at + k] / unit
    ensures i < unit && Flat(chunks)[at + i] == h
  {
    var cand := Flat(chunks);
    var p := cand[at..at + unit];
    FlatDistinct(chunks, us, unit, unit);
    PortionInOneUnit(chunks, us, unit, unit, at);
    SliceDistinct(cand, at, at + unit);
    FullUnit(p, unit);
    WholeHas(p, unit, p[k], h);
    i :| i < |p| && p[i] == h;
  }

  /** Removing whole replicas, each inside one unit, keeps the portions. */
  lemma {:induction false} RemoveReplicas(
      chunks: seq<seq<nat>>, us: seq<nat>, unit: nat, width: nat, copies: nat, gone: seq<nat>)
    returns (left: seq<seq<nat>>)
    requires unit >= 1 && width >= 1 && Dealt(chunks, us, unit, width)
    requires |gone| == width * copies && Distinct(gone) && forall g :: g in gone ==> g in Flat(chunks)
    requires forall i: nat :: i < copies ==> OneUnit(Group(gone, width, i), unit)
    ensures Flat(left) == Without(Flat(chunks), gone) && Dealt(left, us, unit, width)
    decreases copies
  {
    if copies == 0 {
      left := chunks;
      WithoutNothing(Flat(chunks), gone);
    } else {
      var at := (copies - 1) * width;
      MulNext(copies - 1, width);
      var first, last := gone[..at], gone[at..];
      assert gone == first + last;
      forall i: nat | i < copies - 1 ensures Group(first, width, i) == Group(gone, width, i) {
        GroupIs(first, width, copies - 1, i);
        GroupIs(gone, width, copies, i);
      }
      SliceDistinct(gone, 0, at);
      var rest := RemoveReplicas(chunks, us, unit, width, copies - 1, first);
      GroupIs(gone, width, copies, copies - 1);
      assert last == Group(gone, width, copies - 1);
      SliceDistinct(gone, at, |gone|);
      forall g | g in last ensures g in Flat(rest) {
        WithoutMember(Flat(chunks), first, g);
      }
      RemoveGroup(rest, us, unit, width, last);
      left := WithoutAll(rest, last);
      WithoutFlat(rest, last);
      WithoutTwice(Flat(chunks), first, last);
    }
  }

  /** What a plan gets is its own from now on. */
  ghost predicate TakenFrom(p: Placing, cand: seq<nat>) {
    && (forall g :: g in p.gpus ==> g in cand)
    && (forall g :: g in p.rest ==> g in cand && g !in p.gpus)
    && |p.rest| == |cand| - |p.gpus|
  }

  lemma {:induction false} PlaceFacts(
      it: Item, chunks: seq<seq<nat>>, us: seq<nat>, unit: nat) returns (left: seq<seq<nat>>)
    requires ItemOk(it, unit) && Dealt(chunks, us, unit, it.plan.Portion(unit)) && it.plan.Size() <= |Flat(chunks)|
    ensures Place(it, Flat(chunks), unit).rest == Flat(left) && Dealt(left, us, unit, it.plan.Portion(unit))
    ensures Housed(Place(it, Flat(chunks), unit).gpus, it.plan, unit)
    ensures TakenFrom(Place(it, Flat(chunks), unit), Flat(chunks))
  {
    FlatDistinct(chunks, us, unit, it.plan.Portion(unit));
    if CanKeep(it, Flat(chunks), unit) {
      left := KeepFacts(it, chunks, us, unit);
    } else {
      left := DropChunks(chunks, it.plan.Size());
      FrontFacts(it.plan, chunks, us, unit);
    }
  }

  lemma {:induction false} KeepFacts(
      it: Item, chunks: seq<seq<nat>>, us: seq<nat>, unit: nat) returns (left: seq<seq<nat>>)
    requires ItemOk(it, unit) && CanKeep(it, Flat(chunks), unit) && Dealt(chunks, us, unit, it.plan.width)
    requires Distinct(Flat(chunks))
    ensures var gpus := Take(it.held.gpus, it.plan.Size());
            && Flat(left) == Without(Flat(chunks), gpus) && Dealt(left, us, unit, it.plan.width)
            && Housed(gpus, it.plan, unit) && TakenFrom(Placing(gpus, Flat(left), false), Flat(chunks))
  {
    var gpus := Take(it.held.gpus, it.plan.Size());
    SliceDistinct(it.held.gpus, 0, it.plan.Size());
    forall i: nat | i < it.plan.copies ensures OneUnit(Group(gpus, it.plan.width, i), unit) {
      assert EndsTogether(Group(gpus, it.plan.width, i), unit);
      EndsTogetherIff(Group(gpus, it.plan.width, i), unit);
    }
    left := RemoveReplicas(chunks, us, unit, it.plan.width, it.plan.copies, gpus);
    WithoutCounts(Flat(chunks), gpus);
    forall g | g in Flat(left) ensures g in Flat(chunks) && g !in gpus {
      WithoutMember(Flat(chunks), gpus, g);
    }
  }

  lemma {:induction false} FrontFacts(p: Plan, chunks: seq<seq<nat>>, us: seq<nat>, unit: nat)
    requires PlanOk(p, unit) && Dealt(chunks, us, unit, p.Portion(unit)) && p.Size() <= |Flat(chunks)|
    requires Distinct(Flat(chunks))
    ensures Flat(DropChunks(chunks, p.Size())) == Drop(Flat(chunks), p.Size())
    ensures Dealt(DropChunks(chunks, p.Size()), us, unit, p.Portion(unit))
    ensures Housed(Take(Flat(chunks), p.Size()), p, unit)
    ensures forall b :: TakenFrom(Placing(Take(Flat(chunks), p.Size()), Drop(Flat(chunks), p.Size()), b), Flat(chunks))
  {
    var cand, n := Flat(chunks), p.Size();
    MultipleDivides(p.copies, p.width);
    assert p.copies * p.width == n;
    if p.width >= unit {
      DividesTrans(unit, p.width, n);
    }
    DropChunksFacts(chunks, us, unit, p.Portion(unit), n);
    SliceDistinct(cand, 0, n);
    forall i: nat | i < p.copies
      ensures var g := Group(Take(cand, n), p.width, i);
              if p.width >= unit then WholeUnits(g, unit) else OneUnit(g, unit)
    {
      FrontGroupLocal(chunks, us, unit, p, i);
    }
    forall g | g in cand[n..] ensures g !in cand[..n] {
    }
  }

  // ----- all plans

  /** Later plans need smaller portions, and whole ones fit. */
  ghost predicate PortionsChain(items: seq<Item>, unit: nat) {
    && unit >= 1 && (forall k :: 0 <= k < |items| ==> items[k].plan.Portion(unit) >= 1)
    && forall j, k :: 0 <= j < k < |items| ==> Divides(items[k].plan.Portion(unit), items[j].plan.Portion(unit))
  }

  /** Everything handed out is exact, well placed and disjoint from everything else. */
  lemma {:induction false} ReassignSound(items: seq<Item>, chunks: seq<seq<nat>>, us: seq<nat>, unit: nat)
    requires PortionsChain(items, unit) && forall k :: 0 <= k < |items| ==> ItemOk(items[k], unit)
    requires items != [] ==> Dealt(chunks, us, unit, items[0].plan.Portion(unit))
    requires Demand(items) <= |Flat(chunks)|
    ensures var ps := Reassign(items, Flat(chunks), unit);
            && (forall k :: 0 <= k < |ps| ==> Housed(ps[k].gpus, items[k].plan, unit))
            && (forall k, g :: 0 <= k < |ps| && g in ps[k].gpus ==> g in Flat(chunks))
            && (forall j, k :: 0 <= j < k < |ps| ==> Apart(ps[j].gpus, ps[k].gpus))
    decreases |items|
  {
    if items != [] {
      var it, rest := items[0], items[1..];
      var left := PlaceFacts(it, chunks, us, unit);
      if rest != [] {
        assert rest[0] == items[1];
        DealtFiner(left, us, unit, it.plan.Portion(unit), rest[0].plan.Portion(unit));
      }
      ReassignSound(rest, left, us, unit);
      var p, qs := Place(it, Flat(chunks), unit), Reassign(rest, Flat(left), unit);
      var ps := Reassign(items, Flat(chunks), unit);
      assert ps == [p] + qs;
      forall k | 0 <= k < |ps|
        ensures Housed(ps[k].gpus, items[k].plan, unit) && forall g :: g in ps[k].gpus ==> g in Flat(chunks)
      {
        if k > 0 {
          assert ps[k] == qs[k - 1] && items[k] == rest[k - 1];
        }
      }
      forall j, k | 0 <= j < k < |ps| ensures Apart(ps[j].gpus, ps[k].gpus) {
        assert ps[k] == qs[k - 1];
        if j > 0 {
          assert ps[j] == qs[j - 1];
        }
      }
    }
  }
}
