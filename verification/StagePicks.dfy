/** What a round picks: the plans that go on, those launched beside them, and the GPUs they get. The
    GPUs are given by a table of the launched plans, which only grows from round to round. */
module StagePicks {
  import opened Lists
  import opened StableSort
  import opened Placement
  import opened Loading
  import opened PlanStates
  import opened PlanLoading
  import opened StageInvariant

  ghost function AllPlans(groups: Groups): (all: set<PlanState>)
    ensures forall s: nat, p :: s < |groups| && p in groups[s] ==> p in all
    ensures forall p :: p in all ==> exists s: nat :: s < |groups| && p in groups[s]
  {
    set s: nat, p | s < |groups| && p in groups[s] :: p
  }

  /** The plans ever launched. */
  ghost function On(all: set<PlanState>): (on: set<PlanState>)
    reads all
    ensures forall p :: p in on ==> p in all && p.launched
    ensures forall p :: p in all && p.launched ==> p in on
  {
    set p | p in all && p.launched
  }

  function ModelsOf(list: seq<PlanState>): (s: set<nat>)
    ensures forall p :: p in list ==> p.plan.model in s
    ensures forall m :: m in s ==> exists p :: p in list && p.plan.model == m
  {
    set p | p in list :: p.plan.model
  }

  /** The GPUs of the plans ever launched. */
  ghost function GpusHeld(all: set<PlanState>): (held: map<PlanState, seq<nat>>)
    reads all
    ensures held.Keys == On(all) && forall p :: p in held ==> held[p] == p.gpus
  {
    map p | p in On(all) :: p.gpus
  }

  /** Launched plans keep their GPUs. */
  ghost predicate Extends(held: map<PlanState, seq<nat>>, held': map<PlanState, seq<nat>>) {
    forall p :: p in held ==> p in held' && held'[p] == held[p]
  }

  // ----- lists of plans

  lemma {:induction false} SameIndex(list: seq<PlanState>, i: nat, j: nat)
    requires OnePerModel(list) && i < |list| && j < |list| && list[i].plan.model == list[j].plan.model
    ensures i == j
  {
  }

  lemma {:induction false} OtherModel(list: seq<PlanState>, i: nat, j: nat)
    requires OnePerModel(list) && i < |list| && j < |list| && i != j
    ensures list[i].plan.model != list[j].plan.model
  {
  }

  /** Widest first, except for the strategies that keep the planned order. */
  function Wider(list: seq<PlanState>): (nat, nat) -> bool {
    (i: nat, j: nat) => i < |list| && (j >= |list| || list[i].plan.width > list[j].plan.width)
  }

  function WidthOrder(list: seq<PlanState>, keepOrder: bool): seq<PlanState> {
    if keepOrder then list
    else
      WiderInRange(list);
      Gather(list, SortBy(UpTo(|list|), Wider(list)))
  }

  lemma {:induction false} WiderInRange(list: seq<PlanState>)
    ensures InRange(SortBy(UpTo(|list|), Wider(list)), |list|) && Distinct(SortBy(UpTo(|list|), Wider(list)))
    ensures forall i: nat :: i < |list| ==> i in SortBy(UpTo(|list|), Wider(list))
  {
    SortFacts(UpTo(|list|), Wider(list));
    var o := SortBy(UpTo(|list|), Wider(list));
    forall k | 0 <= k < |o| ensures o[k] < |list| {
      assert o[k] in o;
    }
    forall i: nat | i < |list| ensures i in o {
      assert UpTo(|list|)[i] == i;
    }
  }

  lemma {:induction false} WidthOrderFacts(list: seq<PlanState>, keepOrder: bool)
    requires OnePerModel(list)
    ensures OnePerModel(WidthOrder(list, keepOrder))
    ensures forall p :: p in WidthOrder(list, keepOrder) ==> p in list
    ensures forall p :: p in list ==> p in WidthOrder(list, keepOrder)
  {
    if !keepOrder {
      WiderInRange(list);
      var o := SortBy(UpTo(|list|), Wider(list));
      forall j, k | 0 <= j < k < |o| ensures list[o[j]].plan.model != list[o[k]].plan.model {
        assert o[j] != o[k];
        OtherModel(list, o[j], o[k]);
      }
      forall p | p in list ensures p in Gather(list, o) {
        var i: nat :| i < |list| && list[i] == p;
        assert i in o;
        var k :| 0 <= k < |o| && o[k] == i;
        assert Gather(list, o)[k] == p;
      }
    }
  }

  /** The list by decreasing width; plans of the same width stay in order. */
  ghost predicate WidestFirst(list: seq<PlanState>, order: seq<nat>) {
    && InRange(order, |list|) && Distinct(order) && (forall i: nat :: i < |list| ==> i in order)
    && forall j, k :: 0 <= j < k < |order| ==>
         var a, b := order[j], order[k];
         list[a].plan.width > list[b].plan.width || (list[a].plan.width == list[b].plan.width && a < b)
  }

  lemma {:induction false} WidthOrderExact(list: seq<PlanState>, keepOrder: bool) returns (order: seq<nat>)
    ensures InRange(order, |list|) && WidthOrder(list, keepOrder) == Gather(list, order)
    ensures if keepOrder then order == UpTo(|list|) else WidestFirst(list, order)
  {
    if keepOrder {
      order := UpTo(|list|);
    } else {
      WiderInRange(list);
      order := SortBy(UpTo(|list|), Wider(list));
      SortStable(UpTo(|list|), Wider(list));
      forall j, k | 0 <= j < k < |order| ensures Precedes(order[j], order[k], Wider(list)) {
      }
    }
  }

  // ----- one loading loop

  /** The loop on the list as it stands, and the GPUs of the chosen plans. */
  ghost predicate LoadedIn(
      list: seq<PlanState>, slots: seq<Slot>, largestFirst: bool, available: seq<nat>, ids: set<nat>,
      held: map<PlanState, seq<nat>>, chosen: seq<PlanState>, turned: seq<PlanState>, left: seq<nat>)
  {
    && |slots| == |list|
    && var l := Load(CandsOf(list, slots), UpTo(|list|), available, ids, largestFirst);
       && l.Loaded? && (forall k :: 0 <= k < |l.grants| ==> l.grants[k].cand < |list|) && InRange(l.rejected, |list|)
       && chosen == Chosen(list, l.grants) && turned == Gather(list, l.rejected) && left == l.rest
       && forall k :: 0 <= k < |chosen| ==> chosen[k] in held && held[chosen[k]] == l.grants[k].gpus
  }

  /** All of the list were running with the GPUs of the table, or none was. */
  ghost predicate SlotsFor(list: seq<PlanState>, slots: seq<Slot>, on: bool, held: map<PlanState, seq<nat>>) {
    && |slots| == |list|
    && forall i :: 0 <= i < |list| ==>
         slots[i].launched == on && (on ==> list[i] in held && slots[i].gpus == held[list[i]])
  }

  /** The loop on a list brought into width order first. */
  ghost predicate LoopPicks(
      list: seq<PlanState>, on: bool, keepOrder: bool, available: seq<nat>, ids: set<nat>,
      held: map<PlanState, seq<nat>>, chosen: seq<PlanState>, turned: seq<PlanState>, left: seq<nat>)
  {
    exists slots: seq<Slot> ::
      && SlotsFor(WidthOrder(list, keepOrder), slots, on, held)
      && LoadedIn(WidthOrder(list, keepOrder), slots, !keepOrder, available, ids, held, chosen, turned, left)
  }

  /** New plans get exactly as many different GPUs as they need, all of them available, no GPU twice;
      what is left is what nobody got; and who is not chosen, although his model is not, needs more. */
  ghost predicate GivenFrom(
      list: seq<PlanState>, on: bool, available: seq<nat>, ids: set<nat>, held: map<PlanState, seq<nat>>,
      chosen: seq<PlanState>, turned: seq<PlanState>, left: seq<nat>)
  {
    && (forall p :: p in chosen ==> p in held && (!on ==> Fitted(p, held[p], available)))
    && (!on ==> forall p, q :: p in chosen && q in chosen && p != q ==> Apart(held[p], held[q]))
    && Distinct(left) && (forall g: nat :: g in left <==> g in available && !HeldBy(chosen, held, g))
    && (forall p :: p in list ==> p in chosen || p.plan.model in ids || p.plan.Size() > |left|)
    && (forall p :: p in turned ==> p.plan.Size() > |left|)
  }

  ghost predicate Fitted(p: PlanState, gpus: seq<nat>, available: seq<nat>) {
    |gpus| == p.plan.Size() && Distinct(gpus) && forall g: nat :: g in gpus ==> g in available
  }

  /** One of the plans holds the GPU. */
  ghost predicate HeldBy(list: seq<PlanState>, held: map<PlanState, seq<nat>>, g: nat) {
    exists p :: p in list && p in held && g in held[p]
  }

  lemma {:induction false} GrantedMember(grants: seq<Grant>, g: nat)
    ensures g in Granted(grants) <==> exists k :: 0 <= k < |grants| && g in grants[k].gpus
  {
    if grants != [] {
      GrantedMember(grants[1..], g);
      if k :| 0 <= k < |grants[1..]| && g in grants[1..][k].gpus {
        assert g in grants[k + 1].gpus;
      }
      if k :| 0 <= k < |grants| && g in grants[k].gpus {
        assert k > 0 ==> g in grants[1..][k - 1].gpus;
      }
    }
  }

  lemma {:induction false} LeftExact(
      list: seq<PlanState>, slots: seq<Slot>, largestFirst: bool, available: seq<nat>, ids: set<nat>,
      held: map<PlanState, seq<nat>>, chosen: seq<PlanState>, turned: seq<PlanState>, left: seq<nat>)
    requires LoadedIn(list, slots, largestFirst, available, ids, held, chosen, turned, left) && Distinct(available)
    ensures Distinct(left) && forall g: nat :: g in left <==> g in available && !HeldBy(chosen, held, g)
  {
    var l := Load(CandsOf(list, slots), UpTo(|list|), available, ids, largestFirst);
    FreeExact(CandsOf(list, slots), UpTo(|list|), available, ids, largestFirst);
    RestWithin(CandsOf(list, slots), UpTo(|list|), available, ids, largestFirst);
    forall g: nat ensures g in Granted(l.grants) <==> HeldBy(chosen, held, g) {
      GrantedMember(l.grants, g);
      GrantsHeld(l.grants, chosen, held, g);
    }
  }

  lemma {:induction false} GrantsHeld(
      grants: seq<Grant>, chosen: seq<PlanState>, held: map<PlanState, seq<nat>>, g: nat)
    requires |chosen| == |grants|
    requires forall k :: 0 <= k < |chosen| ==> chosen[k] in held && held[chosen[k]] == grants[k].gpus
    ensures (exists k :: 0 <= k < |grants| && g in grants[k].gpus) <==> HeldBy(chosen, held, g)
  {
    if k :| 0 <= k < |grants| && g in grants[k].gpus {
      assert chosen[k] in chosen;
    }
  }

  lemma {:induction false} NewFitted(
      list: seq<PlanState>, slots: seq<Slot>, largestFirst: bool, available: seq<nat>, ids: set<nat>,
      held: map<PlanState, seq<nat>>, chosen: seq<PlanState>, turned: seq<PlanState>, left: seq<nat>)
    requires LoadedIn(list, slots, largestFirst, available, ids, held, chosen, turned, left) && Distinct(available)
    requires SlotsFor(list, slots, false, held)
    ensures forall p :: p in chosen ==> p in held && Fitted(p, held[p], available)
    ensures forall p, q :: p in chosen && q in chosen && p != q ==> Apart(held[p], held[q])
  {
    var cands := CandsOf(list, slots);
    var l := Load(cands, UpTo(|list|), available, ids, largestFirst);
    LoadSound(cands, UpTo(|list|), available, ids, largestFirst);
    assert forall k :: 0 <= k < |l.grants| ==> New(cands, l.grants[k]);
    forall p | p in chosen ensures Fitted(p, held[p], available) {
      var k :| 0 <= k < |chosen| && chosen[k] == p;
      assert GrantFits(cands, available, l, l.grants[k]);
    }
    forall p, q | p in chosen && q in chosen && p != q ensures Apart(held[p], held[q]) {
      var j :| 0 <= j < |chosen| && chosen[j] == p;
      var k :| 0 <= k < |chosen| && chosen[k] == q;
      ApartBothWays(held[p], held[q]);
    }
  }

  lemma {:induction false} ApartBothWays(a: seq<nat>, b: seq<nat>)
    ensures Apart(a, b) <==> Apart(b, a)
  {
  }

  lemma {:induction false} NotChosenLarge(
      list: seq<PlanState>, slots: seq<Slot>, largestFirst: bool, available: seq<nat>, ids: set<nat>,
      held: map<PlanState, seq<nat>>, chosen: seq<PlanState>, turned: seq<PlanState>, left: seq<nat>, i: nat)
    requires LoadedIn(list, slots, largestFirst, available, ids, held, chosen, turned, left) && Distinct(available)
    requires OnePerModel(list) && i < |list|
    ensures list[i] in chosen || list[i].plan.model in ids || list[i].plan.Size() > |left|
  {
    var cands := CandsOf(list, slots);
    var l := Load(cands, UpTo(|list|), available, ids, largestFirst);
    assert UpTo(|list|)[i] == i;
    NobodyForgotten(cands, UpTo(|list|), available, ids, largestFirst, i);
    if Taken(cands, l.grants, i) {
      var k :| 0 <= k < |l.grants| && list[l.grants[k].cand].plan.model == list[i].plan.model;
      SameIndex(list, l.grants[k].cand, i);
      assert chosen[k] == list[i];
    }
  }

  lemma {:induction false} TurnedLarge(
      list: seq<PlanState>, slots: seq<Slot>, largestFirst: bool, available: seq<nat>, ids: set<nat>,
      held: map<PlanState, seq<nat>>, chosen: seq<PlanState>, turned: seq<PlanState>, left: seq<nat>)
    requires LoadedIn(list, slots, largestFirst, available, ids, held, chosen, turned, left) && Distinct(available)
    ensures forall p :: p in turned ==> p.plan.Size() > |left|
  {
    LoadSound(CandsOf(list, slots), UpTo(|list|), available, ids, largestFirst);
    var l := Load(CandsOf(list, slots), UpTo(|list|), available, ids, largestFirst);
    forall p | p in turned ensures p.plan.Size() > |left| {
      var k :| 0 <= k < |turned| && turned[k] == p;
      assert l.rejected[k] in l.rejected;
    }
  }

  /** What a loading loop means for the GPUs. */
  lemma {:induction false} LoopPicksGive(
      list: seq<PlanState>, on: bool, keepOrder: bool, available: seq<nat>, ids: set<nat>,
      held: map<PlanState, seq<nat>>, chosen: seq<PlanState>, turned: seq<PlanState>, left: seq<nat>)
    requires LoopPicks(list, on, keepOrder, available, ids, held, chosen, turned, left)
    requires OnePerModel(list) && Distinct(available)
    ensures GivenFrom(list, on, available, ids, held, chosen, turned, left)
  {
    var o := WidthOrder(list, keepOrder);
    WidthOrderFacts(list, keepOrder);
    var slots: seq<Slot> :| SlotsFor(o, slots, on, held)
                            && LoadedIn(o, slots, !keepOrder, available, ids, held, chosen, turned, left);
    LeftExact(o, slots, !keepOrder, available, ids, held, chosen, turned, left);
    TurnedLarge(o, slots, !keepOrder, available, ids, held, chosen, turned, left);
    if !on {
      NewFitted(o, slots, !keepOrder, available, ids, held, chosen, turned, left);
    }
    forall p | p in list ensures p in chosen || p.plan.model in ids || p.plan.Size() > |left| {
      var i: nat :| i < |o| && o[i] == p;
      NotChosenLarge(o, slots, !keepOrder, available, ids, held, chosen, turned, left, i);
    }
  }

  // ----- one round

  /** What one look at the running plans and the candidates picks: those that go on or continue, the
      available GPUs beside them, those launched on them and those turned away, and with what is
      left, the running plans that are kept although a later stage replaces them. */
  datatype Picked = Picked(
    base: seq<PlanState>, avail: seq<nat>, added: seq<PlanState>, turned: seq<PlanState>, left: seq<nat>,
    kept: seq<PlanState>, rest: seq<nat>)
  {
    function After(): seq<PlanState> {
      base + added + kept
    }
  }

  ghost predicate RoundPicked(
      k: Picked, running: seq<PlanState>, cands: seq<PlanState>, target: nat, was: set<nat>, fin: set<nat>, tot: nat,
      keepOrder: bool, held: map<PlanState, seq<nat>>)
  {
    && k.base == Going(running, target, was) + Continuing(cands, fin)
    && CandsPicked(running, Waiting(cands, fin), Going(running, target, was), Continuing(cands, fin), tot, keepOrder,
                   held, k.avail, k.added, k.turned, k.left)
    && SparePicked(Spare(running, target, was), k, keepOrder, held)
  }

  /** The waiting candidates are loaded on the GPUs that those who go on or continue leave. */
  ghost predicate CandsPicked(
      running: seq<PlanState>, wait: seq<PlanState>, going: seq<PlanState>, cont: seq<PlanState>, tot: nat,
      keepOrder: bool, held: map<PlanState, seq<nat>>, avail: seq<nat>, chosen: seq<PlanState>,
      turned: seq<PlanState>, left: seq<nat>)
  {
    && (forall p :: p in going + cont ==> p in held)
    && SameGpus(running, cont, held)
    && AvailableBeside(going + cont, held, tot, avail)
    && LoopPicks(wait, false, keepOrder, avail, ModelsOf(going + cont), held, chosen, turned, left)
  }

  /** Only when somebody is turned away are the plans considered that a later stage replaces. */
  ghost predicate SparePicked(
      spare: seq<PlanState>, k: Picked, keepOrder: bool, held: map<PlanState, seq<nat>>)
  {
    if k.turned == [] then k.kept == [] && k.rest == k.left
    else LoopPicks(spare, true, keepOrder, k.left, ModelsOf(k.base + k.added), held, k.kept, [], k.rest)
  }

  /** The GPUs below tot that none of the plans holds, in order. */
  ghost predicate AvailableBeside(
      base: seq<PlanState>, held: map<PlanState, seq<nat>>, tot: nat, avail: seq<nat>)
  {
    Increasing(avail) && forall g: nat :: g in avail <==> g < tot && !HeldBy(base, held, g)
  }

  /** A plan that continues has the GPUs of the running plan it continues. */
  ghost predicate SameGpus(running: seq<PlanState>, cont: seq<PlanState>, held: map<PlanState, seq<nat>>) {
    forall p, q :: p in cont && q in running && KeyOf(p.plan) == KeyOf(q.plan) ==>
      p in held && q in held && held[p] == held[q]
  }

  ghost function Unheld(list: seq<PlanState>, held: map<PlanState, seq<nat>>, tot: nat): (s: set<nat>)
    ensures forall g: nat :: g in s <==> g < tot && !HeldBy(list, held, g)
  {
    set g: nat | g < tot && !HeldBy(list, held, g)
  }

  /** A launched plan gets exactly its number of different GPUs of the machine, apart from those of
      every plan that goes on or continues and of every other launched plan. A plan is turned away
      only if it needs more GPUs than these leave, and a running plan that could be kept is dropped
      only if its model is taken or it needs more than the kept ones leave as well. */
  ghost predicate GpusGiven(k: Picked, spare: seq<PlanState>, held: map<PlanState, seq<nat>>, tot: nat) {
    && (forall p :: p in k.added ==>
          p in held && |held[p]| == p.plan.Size() && Distinct(held[p]) && forall g: nat :: g in held[p] ==> g < tot)
    && (forall p, q :: p in k.added && q in k.base ==> q in held && Apart(held[p], held[q]))
    && (forall p, q :: p in k.added && q in k.added && p != q ==> Apart(held[p], held[q]))
    && (forall p :: p in k.turned ==> p.plan.Size() > |Unheld(k.base + k.added, held, tot)|)
    && (k.turned != [] ==> forall p :: p in spare ==>
          || p in k.kept || p.plan.model in ModelsOf(k.base + k.added)
          || p.plan.Size() > |Unheld(k.base + k.added + k.kept, held, tot)|)
  }

  lemma {:induction false} HeldByMore(a: seq<PlanState>, b: seq<PlanState>, held: map<PlanState, seq<nat>>, g: nat)
    ensures HeldBy(a + b, held, g) <==> HeldBy(a, held, g) || HeldBy(b, held, g)
  {
    if p :| p in a + b && p in held && g in held[p] {
      assert p in a || p in b;
    }
    if p :| p in a && p in held && g in held[p] {
      assert p in a + b;
    }
    if p :| p in b && p in held && g in held[p] {
      assert p in a + b;
    }
  }

  lemma {:induction false} LeftCount(
      base: seq<PlanState>, chosen: seq<PlanState>, held: map<PlanState, seq<nat>>, tot: nat, avail: seq<nat>,
      left: seq<nat>)
    requires forall g: nat :: g in avail <==> g < tot && !HeldBy(base, held, g)
    requires Distinct(left) && forall g: nat :: g in left <==> g in avail && !HeldBy(chosen, held, g)
    ensures forall g: nat :: g in left <==> g < tot && !HeldBy(base + chosen, held, g)
    ensures |left| == |Unheld(base + chosen, held, tot)|
  {
    forall g: nat ensures g in left <==> g < tot && !HeldBy(base + chosen, held, g) {
      HeldByMore(base, chosen, held, g);
    }
    DistinctSize(left);
    assert Members(left) == Unheld(base + chosen, held, tot);
  }

  lemma {:induction false} AddedApart(
      base: seq<PlanState>, added: seq<PlanState>, held: map<PlanState, seq<nat>>, tot: nat, avail: seq<nat>,
      p: PlanState, q: PlanState)
    requires AvailableBeside(base, held, tot, avail) && p in added && q in base && p in held && q in held
    requires Fitted(p, held[p], avail)
    ensures Apart(held[p], held[q]) && forall g: nat :: g in held[p] ==> g < tot
  {
    forall g | g in held[p] ensures g < tot && g !in held[q] {
      assert g in avail;
      assert !HeldBy(base, held, g);
    }
  }

  /** What a round means for the GPUs. */
  lemma {:induction false} PickedGives(
      k: Picked, running: seq<PlanState>, cands: seq<PlanState>, target: nat, was: set<nat>, fin: set<nat>, tot: nat,
      keepOrder: bool, held: map<PlanState, seq<nat>>)
    requires RoundPicked(k, running, cands, target, was, fin, tot, keepOrder, held)
    requires OnePerModel(Waiting(cands, fin)) && OnePerModel(Spare(running, target, was))
    ensures GpusGiven(k, Spare(running, target, was), held, tot)
  {
    var wait, spare := Waiting(cands, fin), Spare(running, target, was);
    LoopPicksGive(wait, false, keepOrder, k.avail, ModelsOf(k.base), held, k.added, k.turned, k.left);
    LeftCount(k.base, k.added, held, tot, k.avail, k.left);
    forall p, q | p in k.added && q in k.base ensures Apart(held[p], held[q]) {
      AddedApart(k.base, k.added, held, tot, k.avail, p, q);
    }
    forall p | p in k.added ensures forall g: nat :: g in held[p] ==> g < tot {
      assert Fitted(p, held[p], k.avail);
    }
    if k.turned != [] {
      LoopPicksGive(spare, true, keepOrder, k.left, ModelsOf(k.base + k.added), held, k.kept, [], k.rest);
      LeftCount(k.base + k.added, k.kept, held, tot, k.left, k.rest);
    }
  }

  // ----- later the same still holds

  lemma {:induction false} HeldByKept(
      list: seq<PlanState>, held: map<PlanState, seq<nat>>, held': map<PlanState, seq<nat>>, g: nat)
    requires Extends(held, held') && forall p :: p in list ==> p in held
    ensures HeldBy(list, held', g) <==> HeldBy(list, held, g)
  {
  }

  lemma {:induction false} LoopPicksKept(
      list: seq<PlanState>, on: bool, keepOrder: bool, available: seq<nat>, ids: set<nat>,
      held: map<PlanState, seq<nat>>, held': map<PlanState, seq<nat>>, chosen: seq<PlanState>, turned: seq<PlanState>,
      left: seq<nat>)
    requires LoopPicks(list, on, keepOrder, available, ids, held, chosen, turned, left) && Extends(held, held')
    ensures LoopPicks(list, on, keepOrder, available, ids, held', chosen, turned, left)
  {
    var o := WidthOrder(list, keepOrder);
    var slots: seq<Slot> :| SlotsFor(o, slots, on, held)
                            && LoadedIn(o, slots, !keepOrder, available, ids, held, chosen, turned, left);
    assert SlotsFor(o, slots, on, held');
    assert LoadedIn(o, slots, !keepOrder, available, ids, held', chosen, turned, left);
  }

  lemma {:induction false} PickedKept(
      k: Picked, running: seq<PlanState>, cands: seq<PlanState>, target: nat, was: set<nat>, fin: set<nat>, tot: nat,
      keepOrder: bool, held: map<PlanState, seq<nat>>, held': map<PlanState, seq<nat>>)
    requires RoundPicked(k, running, cands, target, was, fin, tot, keepOrder, held) && Extends(held, held')
    ensures RoundPicked(k, running, cands, target, was, fin, tot, keepOrder, held')
  {
    LoopPicksKept(Waiting(cands, fin), false, keepOrder, k.avail, ModelsOf(k.base), held, held', k.added, k.turned,
                  k.left);
    if k.turned != [] {
      LoopPicksKept(Spare(running, target, was), true, keepOrder, k.left, ModelsOf(k.base + k.added), held, held',
                    k.kept,
                [], k.rest);
    }
    BaseKept(k.base, k.avail, running, Continuing(cands, fin), tot, held, held');
  }

  lemma {:induction false} BaseKept(
      base: seq<PlanState>, avail: seq<nat>, running: seq<PlanState>, cont: seq<PlanState>, tot: nat,
      held: map<PlanState, seq<nat>>, held': map<PlanState, seq<nat>>)
    requires Extends(held, held') && forall p :: p in base ==> p in held
    requires SameGpus(running, cont, held) && AvailableBeside(base, held, tot, avail)
    ensures (forall p :: p in base ==> p in held')
    ensures SameGpus(running, cont, held') && AvailableBeside(base, held', tot, avail)
  {
    forall g: nat ensures HeldBy(base, held', g) <==> HeldBy(base, held, g) {
      HeldByKept(base, held, held', g);
    }
  }

  // ----- rounds repeated at once

  function AnyDone(group: seq<PlanState>, fin: set<nat>): bool {
    exists p :: p in group && p.plan.model in fin
  }

  function CandsAfter(groups: Groups, target: nat, turned: seq<PlanState>): seq<PlanState> {
    if turned != [] then turned else NextCands(groups, target)
  }

  function TargetAfter(target: nat, turned: seq<PlanState>): nat {
    if turned != [] then target else target + 1
  }

  /** One look at the plans after the other: the next stage becomes the target when nobody is turned
      away, and if a model of the old target has finished by then the plans are looked at again. */
  ghost predicate Chain(
      groups: Groups, running: seq<PlanState>, cands: seq<PlanState>, target: nat, tot: nat, seen: nat -> set<nat>,
      now: nat, keepOrder: bool, held: map<PlanState, seq<nat>>, picks: seq<Picked>, running': seq<PlanState>,
      cands': seq<PlanState>, target': nat, now': nat)
    decreases |picks|
  {
    && picks != []
    && var k := picks[0];
       var next := TargetAfter(target, k.turned);
       && RoundPicked(k, running, cands, target, seen(now), seen(now + 1), tot, keepOrder, held)
       && GpusGiven(k, Spare(running, target, seen(now)), held, tot)
       && if target < next < |groups| && exists p :: p in groups[target] && Done(p, seen(now + 2)) then
            Chain(groups, k.After(), CandsAfter(groups, target, k.turned), next, tot, seen, now + 3, keepOrder, held,
                  picks[1..], running', cands', target', now')
          else
            |picks| == 1 && running' == k.After() && cands' == CandsAfter(groups, target, k.turned)
            && target' == next && now' == now + 3
  }

  /** Between two rounds: the state, and what the round before it picked. */
  datatype Turn = Turn(
    running: seq<PlanState>, cands: seq<PlanState>, target: nat, now: nat, picks: seq<Picked>,
    held: map<PlanState, seq<nat>>)

  ghost predicate TurnsInto(
      groups: Groups, a: Turn, b: Turn, tot: nat, seen: nat -> set<nat>, keepOrder: bool)
  {
    Chain(groups, a.running, a.cands, a.target, tot, seen, a.now, keepOrder, b.held, b.picks, b.running, b.cands,
          b.target, b.now)
  }

  /** A run so far, from the given first state. */
  ghost predicate RunSoFar(
      groups: Groups, first: seq<PlanState>, turns: seq<Turn>, tot: nat, seen: nat -> set<nat>, keepOrder: bool)
  {
    && turns != [] && turns[0] == Turn(first, NextCands(groups, 0), 1, 0, [], map[])
    && forall k :: 0 < k < |turns| ==> TurnsInto(groups, turns[k - 1], turns[k], tot, seen, keepOrder)
  }

  lemma {:induction false} RunMore(
      groups: Groups, first: seq<PlanState>, turns: seq<Turn>, b: Turn, tot: nat, seen: nat -> set<nat>,
      keepOrder: bool)
    requires RunSoFar(groups, first, turns, tot, seen, keepOrder)
    requires TurnsInto(groups, turns[|turns| - 1], b, tot, seen, keepOrder)
    ensures RunSoFar(groups, first, turns + [b], tot, seen, keepOrder)
  {
    var all := turns + [b];
    forall k | 0 < k < |all| ensures TurnsInto(groups, all[k - 1], all[k], tot, seen, keepOrder) {
      if k == |turns| {
        assert all[k - 1] == turns[|turns| - 1] && all[k] == b;
      } else {
        assert all[k - 1] == turns[k - 1] && all[k] == turns[k];
      }
    }
  }

  ghost predicate AtTurn(turn: Turn, running: seq<PlanState>, cands: seq<PlanState>, target: nat, now: nat) {
    turn.running == running && turn.cands == cands && turn.target == target && turn.now == now
  }
}
