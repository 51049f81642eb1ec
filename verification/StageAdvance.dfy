/** The round that decides which plans run next. */
module StageAdvance {
  import opened Lists
  import opened StableSort
  import opened GpuUnits
  import opened Acyclic
  import opened Loading
  import opened PlanStates
  import opened PlanLoading
  import opened StageInvariant
  import opened StagePicks

  // ----- loading, seen from outside

  /** What one loading loop makes of a list with one plan per model. */
  ghost predicate LoadMade(
      list: seq<PlanState>, wasOn: set<PlanState>, ids: set<nat>, chosen: seq<PlanState>, turnedAway: seq<PlanState>)
  {
    && OnePerModel(chosen) && OnePerModel(turnedAway)
    && (forall p :: p in chosen ==> p in list && p.plan.model !in ids)
    && (forall p :: p in turnedAway ==> p in list && p !in wasOn && p !in chosen)
    && (forall p :: p in list ==> p in wasOn || p in turnedAway || p.plan.model in ids || p in chosen)
  }

  lemma {:induction false} OneIsDifferent(list: seq<PlanState>)
    requires OnePerModel(list)
    ensures Different(list)
  {
  }

  lemma {:induction false} LoadMadeFacts(
      list: seq<PlanState>, slots: seq<Slot>, available: seq<nat>, ids: set<nat>, largestFirst: bool, l: Loaded,
      wasOn: set<PlanState>)
    requires OnePerModel(list) && |slots| == |list| && Distinct(available)
    requires l == Load(CandsOf(list, slots), UpTo(|list|), available, ids, largestFirst) && l.Loaded?
    requires forall i :: 0 <= i < |list| ==> (slots[i].launched <==> list[i] in wasOn)
    requires (forall k :: 0 <= k < |l.grants| ==> l.grants[k].cand < |list|) && InRange(l.rejected, |list|)
    ensures LoadMade(list, wasOn, ids, Chosen(list, l.grants), Gather(list, l.rejected))
  {
    LoadSound(CandsOf(list, slots), UpTo(|list|), available, ids, largestFirst);
    TurnedAside(list, slots, available, ids, largestFirst, l, wasOn);
    var chosen, turned := Chosen(list, l.grants), Gather(list, l.rejected);
    forall i: nat | i < |list|
      ensures list[i] in wasOn || list[i] in turned || list[i].plan.model in ids || list[i] in chosen
    {
      ListedSomewhere(list, slots, available, ids, largestFirst, l, i);
    }
  }

  lemma {:induction false} TurnedAside(
      list: seq<PlanState>, slots: seq<Slot>, available: seq<nat>, ids: set<nat>, largestFirst: bool, l: Loaded,
      wasOn: set<PlanState>)
    requires OnePerModel(list) && |slots| == |list| && Distinct(available)
    requires l == Load(CandsOf(list, slots), UpTo(|list|), available, ids, largestFirst) && l.Loaded?
    requires forall i :: 0 <= i < |list| ==> (slots[i].launched <==> list[i] in wasOn)
    requires (forall k :: 0 <= k < |l.grants| ==> l.grants[k].cand < |list|) && InRange(l.rejected, |list|)
    ensures OnePerModel(Gather(list, l.rejected))
    ensures forall p :: p in Gather(list, l.rejected) ==> p in list && p !in wasOn && p !in Chosen(list, l.grants)
  {
    var turned := Gather(list, l.rejected);
    EitherOr(CandsOf(list, slots), UpTo(|list|), available, ids, largestFirst);
    forall k: nat | k < |turned| ensures turned[k] !in wasOn && turned[k] !in Chosen(list, l.grants) {
      OneTurned(list, slots, available, ids, largestFirst, l, k);
    }
    forall j, k | 0 <= j < k < |turned| ensures turned[j].plan.model != turned[k].plan.model {
      OtherModel(list, l.rejected[j], l.rejected[k]);
    }
  }

  lemma {:induction false} OneTurned(
      list: seq<PlanState>, slots: seq<Slot>, available: seq<nat>, ids: set<nat>, largestFirst: bool, l: Loaded, k: nat)
    requires OnePerModel(list) && |slots| == |list| && Distinct(available)
    requires l == Load(CandsOf(list, slots), UpTo(|list|), available, ids, largestFirst) && l.Loaded?
    requires (forall k :: 0 <= k < |l.grants| ==> l.grants[k].cand < |list|) && InRange(l.rejected, |list|)
             && k < |l.rejected|
    ensures !slots[l.rejected[k]].launched && list[l.rejected[k]] !in Chosen(list, l.grants)
  {
    LoadSound(CandsOf(list, slots), UpTo(|list|), available, ids, largestFirst);
    EitherOr(CandsOf(list, slots), UpTo(|list|), available, ids, largestFirst);
    var i := l.rejected[k];
    assert i in l.rejected;
    GrantedIndex(list, l.grants, i);
  }

  lemma {:induction false} ListedSomewhere(
      list: seq<PlanState>, slots: seq<Slot>, available: seq<nat>, ids: set<nat>, largestFirst: bool, l: Loaded, i: nat)
    requires OnePerModel(list) && |slots| == |list| && i < |list| && Distinct(available)
    requires l == Load(CandsOf(list, slots), UpTo(|list|), available, ids, largestFirst) && l.Loaded?
    requires (forall k :: 0 <= k < |l.grants| ==> l.grants[k].cand < |list|) && InRange(l.rejected, |list|)
    ensures slots[i].launched || list[i] in Gather(list, l.rejected) || list[i].plan.model in ids
            || list[i] in Chosen(list, l.grants)
  {
    assert UpTo(|list|)[i] == i;
    NobodyForgotten(CandsOf(list, slots), UpTo(|list|), available, ids, largestFirst, i);
    if i in l.rejected {
      Gathered(list, l.rejected, i);
    } else if Taken(CandsOf(list, slots), l.grants, i) {
      ModelChosen(list, slots, l.grants, i);
    }
  }

  lemma {:induction false} Gathered(list: seq<PlanState>, order: seq<nat>, i: nat)
    requires InRange(order, |list|) && i in order
    ensures i < |list| && list[i] in Gather(list, order)
  {
    var k :| 0 <= k < |order| && order[k] == i;
    assert Gather(list, order)[k] == list[i];
  }

  lemma {:induction false} ModelChosen(list: seq<PlanState>, slots: seq<Slot>, grants: seq<Grant>, i: nat)
    requires OnePerModel(list) && |slots| == |list| && i < |list| && Taken(CandsOf(list, slots), grants, i)
    requires forall k :: 0 <= k < |grants| ==> grants[k].cand < |list|
    ensures list[i] in Chosen(list, grants)
  {
    var k :| 0 <= k < |grants| && list[grants[k].cand].plan.model == list[i].plan.model;
    SameIndex(list, grants[k].cand, i);
    assert Chosen(list, grants)[k] == list[i];
  }

  // ----- the model system

  /** Every plan reads from what the model system says its model reads from, and nothing reads from
      itself in the end. */
  ghost predicate SystemOk(groups: Groups, system: Graph) {
    && !HasCycle(system)
    && forall s: nat, p :: s < |groups| && p in groups[s] ==>
         p.plan.model in system && p.plan.inputs == system[p.plan.model]
  }

  /** Loading never gets stuck. */
  lemma {:induction false} NeverStuck(
      list: seq<PlanState>, slots: seq<Slot>, available: seq<nat>, ids: set<nat>, largestFirst: bool, system: Graph)
    requires |slots| == |list| && !HasCycle(system)
    requires forall p :: p in list ==> p.plan.model in system && p.plan.inputs == system[p.plan.model]
    ensures Load(CandsOf(list, slots), UpTo(|list|), available, ids, largestFirst).Loaded?
  {
    var cands, all := CandsOf(list, slots), UpTo(|list|);
    forall i | 0 <= i < |cands|
      ensures cands[i].plan.model in system && cands[i].plan.inputs == system[cands[i].plan.model]
    {
      assert list[i] in list;
    }
    var g := InputGraph(cands, all);
    forall p: seq<nat> | Cycle(g, p) ensures Cycle(system, p) {
      forall i | 0 <= i < |p| - 1 ensures p[i] in system && p[i + 1] in system[p[i]] {
        assert p[i] in g && p[i + 1] in g[p[i]];
        assert p[i + 1] in InputsOf(cands, all, p[i]);
      }
    }
    LoadsIff(cands, all, available, ids, largestFirst);
  }

  lemma {:induction false} AfterLaunched(slots: seq<Slot>, grants: seq<Grant>, i: nat)
    requires (forall k :: 0 <= k < |grants| ==> grants[k].cand < |slots|) && i < |slots|
    ensures After(slots, grants)[i].launched
            <==> slots[i].launched || exists k :: 0 <= k < |grants| && grants[k].cand == i
    decreases |grants|
  {
    if grants != [] {
      var front := grants[..|grants| - 1];
      AfterLaunched(slots, front, i);
      if k :| 0 <= k < |front| && front[k].cand == i {
        assert grants[k].cand == i;
      }
    }
  }

  /** One loading loop of the round. */
  method LoadList(
      list: seq<PlanState>, available: seq<nat>, ids: set<nat>, largestFirst: bool, ghost all: set<PlanState>,
      ghost system: Graph)
    returns (chosen: seq<PlanState>, turnedAway: seq<PlanState>, free: seq<nat>)
    requires OnePerModel(list) && Distinct(available) && !HasCycle(system)
    requires forall p :: p in list ==> p in all && p.plan.model in system && p.plan.inputs == system[p.plan.model]
    modifies list
    ensures LoadMade(list, old(On(all)), ids, chosen, turnedAway)
    ensures LoadedIn(list, old(SlotsOf(list)), largestFirst, available, ids, GpusHeld(all), chosen, turnedAway, free)
    ensures On(all) == old(On(all)) + set p | p in chosen
    ensures Distinct(free)
    ensures forall p :: p in old(On(all)) ==> p.gpus == old(p.gpus)
  {
    OneIsDifferent(list);
    ghost var slots, was := SlotsOf(list), On(all);
    NeverStuck(list, slots, available, ids, largestFirst, system);
    var ok;
    ghost var l;
    ok, chosen, turnedAway, free, l := TryToLoad(list, available, ids, largestFirst);
    LoadMadeFacts(list, slots, available, ids, largestFirst, l, was);
    FreeExact(CandsOf(list, slots), UpTo(|list|), available, ids, largestFirst);
    ghost var slots' := SlotsOf(list);
    LaunchedNow(list, slots, l.grants);
    GpusKept(list, slots, available, ids, largestFirst, l);
    forall p | p in was ensures p.gpus == old(p.gpus) {
      if p in list {
        var i: nat :| i < |list| && list[i] == p;
        assert slots[i].launched && slots'[i].gpus == slots[i].gpus;
      }
    }
    assert forall i :: 0 <= i < |list| ==> (slots'[i].launched <==> slots[i].launched || list[i] in chosen);
    OnGrows(list, all, was, chosen);
    ChosenHold(list, slots, available, ids, largestFirst, l);
    forall k | 0 <= k < |chosen| ensures chosen[k] in GpusHeld(all) && GpusHeld(all)[chosen[k]] == l.grants[k].gpus {
      assert chosen[k] in chosen;
      assert slots'[l.grants[k].cand].gpus == chosen[k].gpus;
    }
  }

  /** A chosen plan holds what it was granted. */
  lemma {:induction false} ChosenHold(
      list: seq<PlanState>, slots: seq<Slot>, available: seq<nat>, ids: set<nat>, largestFirst: bool, l: Loaded)
    requires |slots| == |list| && Distinct(available)
    requires l == Load(CandsOf(list, slots), UpTo(|list|), available, ids, largestFirst) && l.Loaded?
    requires forall k :: 0 <= k < |l.grants| ==> l.grants[k].cand < |list|
    ensures forall k :: 0 <= k < |l.grants| ==> After(slots, l.grants)[l.grants[k].cand].gpus == l.grants[k].gpus
  {
    LoadSound(CandsOf(list, slots), UpTo(|list|), available, ids, largestFirst);
    forall k: nat | k < |l.grants| ensures After(slots, l.grants)[l.grants[k].cand].gpus == l.grants[k].gpus {
      AfterGrant(slots, l.grants, k);
    }
  }

  lemma {:induction false} AfterGrant(slots: seq<Slot>, grants: seq<Grant>, k: nat)
    requires (forall j :: 0 <= j < |grants| ==> grants[j].cand < |slots|) && k < |grants|
    requires forall j :: k < j < |grants| ==> grants[j].cand != grants[k].cand
    ensures After(slots, grants)[grants[k].cand].gpus == grants[k].gpus
    decreases |grants|
  {
    if k < |grants| - 1 {
      AfterGrant(slots, grants[..|grants| - 1], k);
    }
  }

  /** Loading a plan that runs leaves it its GPUs. */
  lemma {:induction false} GpusKept(
      list: seq<PlanState>, slots: seq<Slot>, available: seq<nat>, ids: set<nat>, largestFirst: bool, l: Loaded)
    requires |slots| == |list| && Distinct(available)
    requires l == Load(CandsOf(list, slots), UpTo(|list|), available, ids, largestFirst) && l.Loaded?
    requires forall k :: 0 <= k < |l.grants| ==> l.grants[k].cand < |list|
    ensures forall i :: 0 <= i < |list| && slots[i].launched ==> After(slots, l.grants)[i].gpus == slots[i].gpus
  {
    LoadSound(CandsOf(list, slots), UpTo(|list|), available, ids, largestFirst);
    forall i: nat | i < |list| && slots[i].launched ensures After(slots, l.grants)[i].gpus == slots[i].gpus {
      AfterGpus(slots, l.grants, i);
    }
  }

  lemma {:induction false} AfterGpus(slots: seq<Slot>, grants: seq<Grant>, i: nat)
    requires (forall k :: 0 <= k < |grants| ==> grants[k].cand < |slots|) && i < |slots|
    requires forall k :: 0 <= k < |grants| && grants[k].cand == i ==> grants[k].gpus == slots[i].gpus
    ensures After(slots, grants)[i].gpus == slots[i].gpus
    decreases |grants|
  {
    if grants != [] {
      AfterGpus(slots, grants[..|grants| - 1], i);
    }
  }

  lemma {:induction false} LaunchedNow(list: seq<PlanState>, slots: seq<Slot>, grants: seq<Grant>)
    requires OnePerModel(list) && |slots| == |list| && forall k :: 0 <= k < |grants| ==> grants[k].cand < |list|
    ensures forall i :: 0 <= i < |list| ==>
              (After(slots, grants)[i].launched <==> slots[i].launched || list[i] in Chosen(list, grants))
  {
    forall i: nat | i < |list|
      ensures After(slots, grants)[i].launched <==> slots[i].launched || list[i] in Chosen(list, grants)
    {
      AfterLaunched(slots, grants, i);
      GrantedIndex(list, grants, i);
    }
  }

  /** What is on now: what was on, and the chosen plans. */
  lemma {:induction false} OnGrows(
      list: seq<PlanState>, all: set<PlanState>, was: set<PlanState>, chosen: seq<PlanState>)
    requires was <= all && (forall p :: p in list ==> p in all) && (forall p :: p in chosen ==> p in list)
    requires forall p :: p in all && p !in list ==> (p.launched <==> p in was)
    requires forall i :: 0 <= i < |list| ==> (list[i].launched <==> list[i] in was || list[i] in chosen)
    ensures On(all) == was + set p | p in chosen
  {
    forall p | p in all ensures p in On(all) <==> p in was || p in chosen {
      if p in list {
        var i :| 0 <= i < |list| && list[i] == p;
      }
    }
  }

  /** The loading loop on a list brought into width order first. */
  method LoadOrdered(
      list: seq<PlanState>, available: seq<nat>, ids: set<nat>, keepOrder: bool, ghost all: set<PlanState>,
      ghost system: Graph)
    returns (chosen: seq<PlanState>, turnedAway: seq<PlanState>, free: seq<nat>)
    requires OnePerModel(list) && Distinct(available) && !HasCycle(system)
    requires forall p :: p in list ==> p in all && p.plan.model in system && p.plan.inputs == system[p.plan.model]
    modifies list
    ensures LoadMade(list, old(On(all)), ids, chosen, turnedAway)
    ensures LoadedIn(WidthOrder(list, keepOrder), old(SlotsOf(WidthOrder(list, keepOrder))), !keepOrder, available, ids,
                     GpusHeld(all), chosen, turnedAway, free)
    ensures On(all) == old(On(all)) + set p | p in chosen
    ensures Distinct(free)
    ensures forall p :: p in old(On(all)) ==> p.gpus == old(p.gpus)
  {
    var ordered := WidthOrder(list, keepOrder);
    WidthOrderFacts(list, keepOrder);
    forall k | 0 <= k < |ordered| ensures ordered[k] in list {
      assert ordered[k] in ordered;
    }
    chosen, turnedAway, free := LoadList(ordered, available, ids, !keepOrder, all, system);
  }

  lemma {:induction false} GrantedIndex(list: seq<PlanState>, grants: seq<Grant>, i: nat)
    requires OnePerModel(list) && i < |list| && forall k :: 0 <= k < |grants| ==> grants[k].cand < |list|
    ensures list[i] in Chosen(list, grants) <==> exists k :: 0 <= k < |grants| && grants[k].cand == i
  {
    if list[i] in Chosen(list, grants) {
      var k :| 0 <= k < |grants| && Chosen(list, grants)[k] == list[i];
      SameIndex(list, grants[k].cand, i);
    }
    if k :| 0 <= k < |grants| && grants[k].cand == i {
      assert Chosen(list, grants)[k] == list[i];
    }
  }

  // ----- the round

  /** The running plans that go on, and those a later stage replaces. */
  method SplitRunning(
      running: seq<PlanState>, target: nat, fin: set<nat>) returns (going: seq<PlanState>, spare: seq<PlanState>)
    ensures going == Going(running, target, fin) && spare == Spare(running, target, fin)
  {
    going, spare := [], [];
    for k := 0 to |running|
      invariant going == Going(running[..k], target, fin) && spare == Spare(running[..k], target, fin)
    {
      assert running[..k + 1][..k] == running[..k];
      var p := running[k];
      if p.plan.model !in fin {
        if p.stage < target && !p.last {
          spare := spare + [p];
        } else {
          going := going + [p];
        }
      }
    }
    assert running[..|running|] == running;
  }

  /** The GPUs of the running plans by key. */
  function GpuTable(running: seq<PlanState>): map<PlanKey, seq<nat>>
    reads running
  {
    if running == [] then map[]
    else
      var last := running[|running| - 1];
      GpuTable(running[..|running| - 1])[KeyOf(last.plan) := last.gpus]
  }

  lemma {:induction false} TableHas(running: seq<PlanState>, q: PlanState)
    requires q in running && OnePerModel(running)
    ensures KeyOf(q.plan) in GpuTable(running) && GpuTable(running)[KeyOf(q.plan)] == q.gpus
    decreases |running|
  {
    var front, last := running[..|running| - 1], running[|running| - 1];
    if q != last {
      assert q in front;
      var j :| 0 <= j < |front| && front[j] == q;
      assert running[j].plan.model != running[|running| - 1].plan.model;
      TableHas(front, q);
    }
  }

  predicate Continues(p: PlanState, fin: set<nat>) {
    p.plan.model !in fin && !p.needPrepare
  }

  /** A candidate after the first phase: of a finished model it counts as launched, as the
      continuation of the stage before it also takes over the GPUs. */
  function ContinuedSlot(p: PlanState, slot: Slot, table: map<PlanKey, seq<nat>>, fin: set<nat>): Slot
    requires Continues(p, fin) ==> KeyOf(p.plan) in table
  {
    if p.plan.model in fin then Slot(true, slot.gpus)
    else if !p.needPrepare then Slot(true, table[KeyOf(p.plan)])
    else slot
  }

  ghost predicate TableFor(cands: seq<PlanState>, table: map<PlanKey, seq<nat>>, fin: set<nat>) {
    forall k :: 0 <= k < |cands| && Continues(cands[k], fin) ==> KeyOf(cands[k].plan) in table
  }

  function Continued(
      cands: seq<PlanState>, slots: seq<Slot>, table: map<PlanKey, seq<nat>>, fin: set<nat>, k: nat): (v: seq<Slot>)
    requires |slots| == |cands| && k <= |cands| && TableFor(cands, table, fin)
    ensures |v| == |slots|
    ensures forall j :: 0 <= j < |v| ==>
              v[j] == if j < k then ContinuedSlot(cands[j], slots[j], table, fin) else slots[j]
  {
    if k == 0 then slots
    else Continued(cands, slots, table, fin, k - 1)[k - 1 := ContinuedSlot(cands[k - 1], slots[k - 1], table, fin)]
  }

  method ContinueAt(cands: seq<PlanState>, k: nat, table: map<PlanKey, seq<nat>>, fin: set<nat>)
    requires Different(cands) && k < |cands| && (Continues(cands[k], fin) ==> KeyOf(cands[k].plan) in table)
    modifies cands[k]
    ensures SlotsOf(cands) == old(SlotsOf(cands))[k := ContinuedSlot(cands[k], old(SlotsOf(cands))[k], table, fin)]
  {
    var p := cands[k];
    if p.plan.model in fin {
      p.launched := true;
    } else if !p.needPrepare {
      p.launched := true;
      p.gpus := table[KeyOf(p.plan)];
    }
  }

  lemma {:induction false} CandsStep(cands: seq<PlanState>, k: nat, fin: set<nat>)
    requires k < |cands|
    ensures var p := cands[k];
            && Continuing(cands[..k + 1], fin) == Continuing(cands[..k], fin) + (if Continues(p, fin) then [p] else [])
            && Waiting(cands[..k + 1], fin)
                 == Waiting(cands[..k], fin) + (if p.plan.model !in fin && p.needPrepare then [p] else [])
  {
    assert cands[..k + 1][..k] == cands[..k];
  }

  /** All candidates: those that continue, and those that wait for an environment to be prepared. */
  method ContinueCands(running: seq<PlanState>, cands: seq<PlanState>, fin: set<nat>)
    returns (cont: seq<PlanState>, wait: seq<PlanState>)
    requires OnePerModel(cands) && TableFor(cands, GpuTable(running), fin)
    modifies cands
    ensures cont == Continuing(cands, fin) && wait == Waiting(cands, fin)
    ensures SlotsOf(cands) == Continued(cands, old(SlotsOf(cands)), old(GpuTable(running)), fin, |cands|)
  {
    var table := GpuTable(running);
    ghost var slots := SlotsOf(cands);
    OneIsDifferent(cands);
    cont, wait := [], [];
    for k := 0 to |cands|
      invariant cont == Continuing(cands[..k], fin) && wait == Waiting(cands[..k], fin)
      invariant SlotsOf(cands) == Continued(cands, slots, table, fin, k)
    {
      var p := cands[k];
      CandsStep(cands, k, fin);
      ContinueAt(cands, k, table, fin);
      cont := cont + (if Continues(p, fin) then [p] else []);
      wait := wait + (if p.plan.model !in fin && p.needPrepare then [p] else []);
    }
    assert cands[..|cands|] == cands;
  }

  /** GPUs that none of the plans holds. */
  function FreeGpus(list: seq<PlanState>, tot: nat): (free: seq<nat>)
    reads list
  {
    Without(UpTo(tot), Occupying(list))
  }

  function Occupying(list: seq<PlanState>): seq<nat>
    reads list
  {
    if list == [] then [] else Occupying(list[..|list| - 1]) + list[|list| - 1].gpus
  }

  lemma {:induction false} OccupyingMember(list: seq<PlanState>, g: nat)
    ensures g in Occupying(list) <==> exists p :: p in list && g in p.gpus
  {
    if list != [] {
      var front, last := list[..|list| - 1], list[|list| - 1];
      OccupyingMember(front, g);
      assert list == front + [last];
    }
  }

  lemma {:induction false} WithoutIncreases(s: seq<nat>, gone: seq<nat>)
    requires Increasing(s)
    ensures Increasing(Without(s, gone))
  {
    if s != [] {
      var rest := Without(s[1..], gone);
      WithoutIncreases(s[1..], gone);
      forall k | 0 <= k < |rest| ensures s[0] < rest[k] {
        assert rest[k] in rest;
        WithoutMember(s[1..], gone, rest[k]);
      }
    }
  }

  lemma {:induction false} FreeBeside(list: seq<PlanState>, tot: nat, held: map<PlanState, seq<nat>>)
    requires forall p :: p in list ==> p in held && held[p] == p.gpus
    ensures AvailableBeside(list, held, tot, FreeGpus(list, tot))
  {
    WithoutIncreases(UpTo(tot), Occupying(list));
    forall g: nat ensures g in FreeGpus(list, tot) <==> g < tot && !HeldBy(list, held, g) {
      WithoutMember(UpTo(tot), Occupying(list), g);
      OccupyingMember(list, g);
      assert g in UpTo(tot) <==> g < tot by {
        if g < tot {
          assert UpTo(tot)[g] == g;
        }
      }
    }
  }

  /** No candidate that waits has been launched. */
  lemma {:induction false} NoneOn(
      groups: Groups, running: seq<PlanState>, cands: seq<PlanState>, target: nat, on: set<PlanState>, fin: set<nat>,
      on1: set<PlanState>, list: seq<PlanState>)
    requires StageInv(groups, running, cands, target, on, fin)
    requires OnMade(on, cands, fin, Continuing(cands, fin), [], on1)
    requires forall p :: p in list ==> p in Waiting(cands, fin)
    ensures forall p :: p in list ==> p !in on1 && Stage(groups, p)
  {
    forall p | p in list ensures p !in on1 && Stage(groups, p) {
      assert p in cands && p !in on;
    }
  }

  lemma {:induction false} FreeDistinct(list: seq<PlanState>, tot: nat)
    ensures Distinct(FreeGpus(list, tot))
  {
    WithoutKeeps(UpTo(tot), Occupying(list));
  }

  /** What the two loading loops of a round deliver. */
  ghost predicate PartsOk(
      first: seq<PlanState>, wait: seq<PlanState>, spare: seq<PlanState>,
      chosen1: seq<PlanState>, turned: seq<PlanState>, chosen2: seq<PlanState>)
  {
    && OnePerModel(chosen1) && OnePerModel(turned) && OnePerModel(chosen2)
    && (forall p :: p in chosen1 ==> p in wait)
    && (forall p :: p in turned ==> p in wait && p !in chosen1)
    && (forall p :: p in wait ==> p in turned || p in chosen1)
    && (forall p, q :: p in chosen2 && q in first + chosen1 ==> p.plan.model != q.plan.model)
    && (forall p :: p in chosen2 ==> p in spare)
  }

  lemma {:induction false} PartsOnePerModel(
      groups: Groups, running: seq<PlanState>, cands: seq<PlanState>, target: nat, on: set<PlanState>, was: set<nat>,
      fin: set<nat>,
      chosen1: seq<PlanState>, turned: seq<PlanState>, chosen2: seq<PlanState>)
    requires StageInv(groups, running, cands, target, on, fin)
    requires PartsOk(Going(running, target, was) + Continuing(cands, fin), Waiting(cands, fin),
                     Spare(running, target, was),
                     chosen1, turned, chosen2)
    ensures OnePerModel(Going(running, target, was) + Continuing(cands, fin) + chosen1 + chosen2)
  {
    FirstPhase(groups, running, cands, target, on, was, fin);
    var first := Going(running, target, was) + Continuing(cands, fin);
    ConcatOnePerModel(first, chosen1);
    ConcatOnePerModel(first + chosen1, chosen2);
  }

  lemma {:induction false} TurnedNotRunning(
      groups: Groups, running: seq<PlanState>, cands: seq<PlanState>, target: nat, on: set<PlanState>, was: set<nat>,
      fin: set<nat>,
      chosen1: seq<PlanState>, turned: seq<PlanState>, chosen2: seq<PlanState>, p: PlanState)
    requires StageInv(groups, running, cands, target, on, fin) && p in turned
    requires PartsOk(Going(running, target, was) + Continuing(cands, fin), Waiting(cands, fin),
                     Spare(running, target, was),
                     chosen1, turned, chosen2)
    ensures p !in Going(running, target, was) + Continuing(cands, fin) + chosen1 + chosen2
  {
    assert p in Waiting(cands, fin);
    assert p in cands && p.needPrepare;
    assert p !in running;
  }

  /** What was on, what counts as launched now, and what was launched. */
  ghost predicate OnMade(
      on: set<PlanState>, cands: seq<PlanState>, fin: set<nat>, cont: seq<PlanState>, chosen: seq<PlanState>,
      on': set<PlanState>)
  {
    && (forall p :: p in on' ==> p in on || (p in cands && Done(p, fin)) || p in cont || p in chosen)
    && on <= on' && (forall p :: p in cands && Done(p, fin) ==> p in on')
    && (forall p :: p in cont ==> p in on') && (forall p :: p in chosen ==> p in on')
  }

  /** The lists of a round fit together. */
  lemma {:induction false} RoundBuilt(
      groups: Groups, running: seq<PlanState>, cands: seq<PlanState>, target: nat, on: set<PlanState>, was: set<nat>,
      fin: set<nat>,
      chosen1: seq<PlanState>, turned: seq<PlanState>, chosen2: seq<PlanState>, running': seq<PlanState>,
      on': set<PlanState>)
    requires StageInv(groups, running, cands, target, on, fin) && was <= fin
    requires PartsOk(Going(running, target, was) + Continuing(cands, fin), Waiting(cands, fin),
                     Spare(running, target, was),
                     chosen1, turned, chosen2)
    requires running' == Going(running, target, was) + Continuing(cands, fin) + chosen1 + chosen2
    requires OnMade(on, cands, fin, Continuing(cands, fin), chosen1, on')
    ensures RoundMade(running, cands, target, on, was, fin, running', turned, on')
    ensures forall p :: p in running' ==> !Done(p, was)
  {
    PartsOnePerModel(groups, running, cands, target, on, was, fin, chosen1, turned, chosen2);
    forall p | p in chosen2 ensures p in on {
      assert p in Spare(running, target, was);
    }
    forall p | p in turned ensures p !in running' {
      TurnedNotRunning(groups, running, cands, target, on, was, fin, chosen1, turned, chosen2, p);
    }
  }

  lemma {:induction false} CandsInSystem(groups: Groups, list: seq<PlanState>, system: Graph)
    requires SystemOk(groups, system) && forall p :: p in list ==> Stage(groups, p)
    ensures forall p :: p in list ==>
              p in AllPlans(groups) && p.plan.model in system && p.plan.inputs == system[p.plan.model]
  {
  }

  lemma {:induction false} OnAfterContinue(
      all: set<PlanState>, was: set<PlanState>, cands: seq<PlanState>, cont: seq<PlanState>, fin: set<nat>)
    requires was <= all && forall p :: p in cands ==> p in all
    requires forall p :: p in cont ==> p in cands
    requires forall p :: p in all && p !in cands ==> (p.launched <==> p in was)
    requires forall k :: 0 <= k < |cands| ==>
               (cands[k].launched <==> cands[k] in was || Done(cands[k], fin) || cands[k] in cont)
    ensures OnMade(was, cands, fin, cont, [], On(all))
  {
  }

  lemma {:induction false} OnMadeMore(
      on: set<PlanState>, cands: seq<PlanState>, fin: set<nat>, cont: seq<PlanState>, on1: set<PlanState>,
      chosen: seq<PlanState>, on': set<PlanState>)
    requires OnMade(on, cands, fin, cont, [], on1) && on' == on1 + set p | p in chosen
    ensures OnMade(on, cands, fin, cont, chosen, on')
  {
  }

  /** The waiting candidates before the first loading loop: none launched, none of a model chosen. */
  lemma {:induction false} WaitingReady(
      groups: Groups, running: seq<PlanState>, cands: seq<PlanState>, target: nat, on: set<PlanState>, was: set<nat>,
      fin: set<nat>,
      on1: set<PlanState>, list: seq<PlanState>, chosen: seq<PlanState>, turned: seq<PlanState>)
    requires StageInv(groups, running, cands, target, on, fin)
    requires OnMade(on, cands, fin, Continuing(cands, fin), [], on1)
    requires (forall p :: p in list ==> p in Waiting(cands, fin))
             && (forall p :: p in Waiting(cands, fin) ==> p in list)
    requires LoadMade(list, on1, ModelsOf(Going(running, target, was) + Continuing(cands, fin)), chosen, turned)
    ensures (forall p :: p in chosen ==> p in Waiting(cands, fin))
    ensures (forall p :: p in turned ==> p in Waiting(cands, fin) && p !in chosen)
    ensures forall p :: p in Waiting(cands, fin) ==> p in turned || p in chosen
  {
    FirstPhase(groups, running, cands, target, on, was, fin);
    forall p | p in Waiting(cands, fin) ensures p in turned || p in chosen {
      assert p in cands && p !in on;
      assert p !in on1;
    }
  }

  lemma {:induction false} ContinuedFlags(
      cands: seq<PlanState>, slots: seq<Slot>, table: map<PlanKey, seq<nat>>, fin: set<nat>)
    requires |slots| == |cands| && TableFor(cands, table, fin)
    ensures forall k :: 0 <= k < |cands| ==>
              (Continued(cands, slots, table, fin, |cands|)[k].launched
               <==> slots[k].launched || Done(cands[k], fin) || cands[k] in Continuing(cands, fin))
  {
    forall k | 0 <= k < |cands| ensures cands[k] in Continuing(cands, fin) <==> Continues(cands[k], fin) {
      assert cands[k] in cands;
    }
  }

  /** Candidates that continue the stage before take over its GPUs. */
  method Continue(
      groups: Groups, running: seq<PlanState>, cands: seq<PlanState>, target: nat, fin: set<nat>)
    returns (cont: seq<PlanState>, wait: seq<PlanState>)
    requires StageInv(groups, running, cands, target, On(AllPlans(groups)), fin)
    modifies cands
    ensures cont == Continuing(cands, fin) && wait == Waiting(cands, fin)
    ensures OnMade(old(On(AllPlans(groups))), cands, fin, cont, [], On(AllPlans(groups)))
    ensures forall p :: p in old(On(AllPlans(groups))) ==> p.gpus == old(p.gpus)
    ensures TableFor(cands, old(GpuTable(running)), fin)
    ensures SlotsOf(cands) == Continued(cands, old(SlotsOf(cands)), old(GpuTable(running)), fin, |cands|)
  {
    ghost var on, slots, table := On(AllPlans(groups)), SlotsOf(cands), GpuTable(running);
    forall k | 0 <= k < |cands| && Continues(cands[k], fin) ensures KeyOf(cands[k].plan) in table {
      assert cands[k] in Continuing(cands, fin);
      var q := ContinuesRunning(groups, running, cands, target, on, fin, cands[k]);
      TableHas(running, q);
    }
    cont, wait := ContinueCands(running, cands, fin);
    ContinuedFlags(cands, slots, table, fin);
    ghost var now := SlotsOf(cands);
    forall k | 0 <= k < |cands|
      ensures cands[k].launched <==> cands[k] in on || Done(cands[k], fin) || cands[k] in cont
    {
      assert now[k].launched == cands[k].launched;
    }
    OnAfterContinue(AllPlans(groups), on, cands, cont, fin);
  }

  method ContinueSame(
      groups: Groups, running: seq<PlanState>, cands: seq<PlanState>, target: nat, fin: set<nat>)
    returns (cont: seq<PlanState>, wait: seq<PlanState>)
    requires StageInv(groups, running, cands, target, On(AllPlans(groups)), fin)
    modifies cands
    ensures cont == Continuing(cands, fin) && wait == Waiting(cands, fin)
    ensures OnMade(old(On(AllPlans(groups))), cands, fin, cont, [], On(AllPlans(groups)))
    ensures forall p :: p in old(On(AllPlans(groups))) ==> p.gpus == old(p.gpus)
    ensures SameGpus(running, cont, GpusHeld(AllPlans(groups)))
  {
    ghost var slots, table, held := SlotsOf(cands), GpuTable(running), GpusHeld(AllPlans(groups));
    TableMade(running, held);
    cont, wait := Continue(groups, running, cands, target, fin);
    ghost var now := SlotsOf(cands);
    forall k | 0 <= k < |cands| && Continues(cands[k], fin)
      ensures cands[k] in On(AllPlans(groups)) && cands[k].gpus == now[k].gpus
    {
      assert cands[k] in cont;
    }
    ContinuedSame(running, cands, slots, table, fin, held, GpusHeld(AllPlans(groups)));
  }

  /** A plan that continues takes over the GPUs of the running plan with its key. */
  lemma {:induction false} ContinuedSame(
      running: seq<PlanState>, cands: seq<PlanState>, slots: seq<Slot>, table: map<PlanKey, seq<nat>>, fin: set<nat>,
      held: map<PlanState, seq<nat>>, held': map<PlanState, seq<nat>>)
    requires |slots| == |cands| && TableFor(cands, table, fin)
    requires TableIs(running, table, held) && Extends(held, held')
    requires forall k :: 0 <= k < |cands| && Continues(cands[k], fin) ==>
               cands[k] in held' && held'[cands[k]] == Continued(cands, slots, table, fin, |cands|)[k].gpus
    ensures SameGpus(running, Continuing(cands, fin), held')
  {
    forall p, q | p in Continuing(cands, fin) && q in running && KeyOf(p.plan) == KeyOf(q.plan)
      ensures p in held' && q in held' && held'[p] == held'[q]
    {
      var k :| 0 <= k < |cands| && cands[k] == p;
      assert Continues(cands[k], fin);
    }
  }

  ghost predicate TableIs(running: seq<PlanState>, table: map<PlanKey, seq<nat>>, held: map<PlanState, seq<nat>>) {
    forall q :: q in running ==> q in held && KeyOf(q.plan) in table && table[KeyOf(q.plan)] == held[q]
  }

  lemma {:induction false} TableMade(running: seq<PlanState>, held: map<PlanState, seq<nat>>)
    requires OnePerModel(running) && forall q :: q in running ==> q in held && held[q] == q.gpus
    ensures TableIs(running, GpuTable(running), held)
  {
    forall q | q in running ensures KeyOf(q.plan) in GpuTable(running) && GpuTable(running)[KeyOf(q.plan)] == q.gpus {
      TableHas(running, q);
    }
  }

  /** The loading loop on new plans, on the GPUs that the given running plans leave. */
  method LoadBeside(
      groups: Groups, base: seq<PlanState>, wait: seq<PlanState>, tot: nat, keepOrder: bool, ghost system: Graph)
    returns (chosen: seq<PlanState>, turned: seq<PlanState>, free: seq<nat>, ghost avail: seq<nat>)
    requires SystemOk(groups, system) && OnePerModel(wait)
    requires forall p :: p in wait ==> Stage(groups, p) && p !in On(AllPlans(groups))
    requires forall p :: p in base ==> p in On(AllPlans(groups))
    modifies wait
    ensures LoadMade(wait, old(On(AllPlans(groups))), ModelsOf(base), chosen, turned) && Distinct(free)
    ensures On(AllPlans(groups)) == old(On(AllPlans(groups))) + set p | p in chosen
    ensures forall p :: p in old(On(AllPlans(groups))) ==> p.gpus == old(p.gpus)
    ensures AvailableBeside(base, GpusHeld(AllPlans(groups)), tot, avail)
    ensures LoopPicks(wait, false, keepOrder, avail, ModelsOf(base), GpusHeld(AllPlans(groups)), chosen, turned, free)
  {
    CandsInSystem(groups, wait, system);
    FreeDistinct(base, tot);
    FreeBeside(base, tot, GpusHeld(AllPlans(groups)));
    WidthOrderFacts(wait, keepOrder);
    ghost var slots, held := SlotsOf(WidthOrder(wait, keepOrder)), GpusHeld(AllPlans(groups));
    avail := FreeGpus(base, tot);
    chosen, turned, free :=
      LoadOrdered(wait, FreeGpus(base, tot), ModelsOf(base), keepOrder, AllPlans(groups), system);
    BaseKept(base, avail, [], [], tot, held, GpusHeld(AllPlans(groups)));
    assert SlotsFor(WidthOrder(wait, keepOrder), slots, false, GpusHeld(AllPlans(groups)));
  }

  /** Candidates that continue the stage before, and those that fit beside everything that goes on. */
  method LoadCands(
      groups: Groups, running: seq<PlanState>, cands: seq<PlanState>, target: nat, going: seq<PlanState>, tot: nat,
      ghost was: set<nat>, fin: set<nat>, keepOrder: bool, ghost system: Graph)
    returns (cont: seq<PlanState>, chosen: seq<PlanState>, turned: seq<PlanState>, free: seq<nat>,
             ghost avail: seq<nat>)
    requires StageInv(groups, running, cands, target, On(AllPlans(groups)), fin) && SystemOk(groups, system)
    requires going == Going(running, target, was)
    modifies cands
    ensures cont == Continuing(cands, fin) && OnePerModel(chosen) && OnePerModel(turned) && Distinct(free)
    ensures (forall p :: p in chosen ==> p in Waiting(cands, fin))
    ensures (forall p :: p in turned ==> p in Waiting(cands, fin) && p !in chosen)
    ensures forall p :: p in Waiting(cands, fin) ==> p in turned || p in chosen
    ensures OnMade(old(On(AllPlans(groups))), cands, fin, cont, chosen, On(AllPlans(groups)))
    ensures forall p :: p in old(On(AllPlans(groups))) ==> p.gpus == old(p.gpus)
    ensures CandsPicked(running, Waiting(cands, fin), going, cont, tot, keepOrder, GpusHeld(AllPlans(groups)), avail,
                        chosen,
                        turned, free)
  {
    ghost var all, on := AllPlans(groups), On(AllPlans(groups));
    FirstPhase(groups, running, cands, target, on, was, fin);
    var wait;
    cont, wait := ContinueSame(groups, running, cands, target, fin);
    ghost var on1, held := On(all), GpusHeld(all);
    NoneOn(groups, running, cands, target, on, fin, on1, wait);
    BaseOn(groups, running, cands, target, on, was, fin, on1);
    chosen, turned, free, avail := LoadBeside(groups, going + cont, wait, tot, keepOrder, system);
    WaitingReady(groups, running, cands, target, on, was, fin, on1, wait, chosen, turned);
    OnMadeMore(on, cands, fin, cont, on1, chosen, On(all));
    StillSame(running, cont, held, GpusHeld(all));
  }

  lemma {:induction false} StillSame(
      running: seq<PlanState>, cont: seq<PlanState>, held: map<PlanState, seq<nat>>, held': map<PlanState, seq<nat>>)
    requires SameGpus(running, cont, held) && Extends(held, held')
    ensures SameGpus(running, cont, held')
  {
  }

  lemma {:induction false} BaseOn(
      groups: Groups, running: seq<PlanState>, cands: seq<PlanState>, target: nat, on: set<PlanState>, was: set<nat>,
      fin: set<nat>, on1: set<PlanState>)
    requires StageInv(groups, running, cands, target, on, fin)
    requires OnMade(on, cands, fin, Continuing(cands, fin), [], on1)
    ensures forall p :: p in Going(running, target, was) + Continuing(cands, fin) ==> p in on1
  {
  }

  ghost predicate OtherModels(a: seq<PlanState>, b: seq<PlanState>) {
    forall p, q :: p in a && q in b ==> p.plan.model != q.plan.model
  }

  lemma {:induction false} OthersThan(chosen: seq<PlanState>, first: seq<PlanState>)
    requires forall p :: p in chosen ==> p.plan.model !in ModelsOf(first)
    ensures OtherModels(chosen, first)
  {
  }

  lemma {:induction false} NoneTurned(list: seq<PlanState>, on: set<PlanState>, turned: seq<PlanState>)
    requires (forall p :: p in list ==> p in on) && forall p :: p in turned ==> p in list && p !in on
    ensures turned == []
  {
    FirstMember(turned);
  }

  lemma {:induction false} FirstMember(list: seq<PlanState>)
    ensures list != [] ==> list[0] in list
  {
  }

  /** The loading loop on plans that run: it launches nothing and leaves them their GPUs. */
  method LoadRunning(
      groups: Groups, list: seq<PlanState>, ids: set<nat>, free: seq<nat>, keepOrder: bool, ghost system: Graph)
    returns (chosen: seq<PlanState>, ghost turned: seq<PlanState>, ghost left: seq<nat>)
    requires SystemOk(groups, system) && OnePerModel(list) && Distinct(free)
    requires forall p :: p in list ==> Stage(groups, p) && p in On(AllPlans(groups))
    modifies list
    ensures LoadMade(list, old(On(AllPlans(groups))), ids, chosen, turned)
    ensures GpusHeld(AllPlans(groups)) == old(GpusHeld(AllPlans(groups)))
    ensures LoopPicks(list, true, keepOrder, free, ids, GpusHeld(AllPlans(groups)), chosen, turned, left)
  {
    CandsInSystem(groups, list, system);
    ghost var slots, o := SlotsOf(WidthOrder(list, keepOrder)), WidthOrder(list, keepOrder);
    WidthOrderFacts(list, keepOrder);
    var out, rest;
    chosen, out, rest := LoadOrdered(list, free, ids, keepOrder, AllPlans(groups), system);
    turned, left := out, rest;
    assert On(AllPlans(groups)) == old(On(AllPlans(groups)));
    assert SlotsFor(o, slots, true, GpusHeld(AllPlans(groups)));
  }

  /** Plans that a later stage replaces go on while there is room beside everything chosen. */
  method LoadSpare(
      groups: Groups, spare: seq<PlanState>, first: seq<PlanState>, free: seq<nat>, keepOrder: bool,
      ghost system: Graph)
    returns (chosen: seq<PlanState>, ghost left: seq<nat>)
    requires SystemOk(groups, system) && OnePerModel(spare) && Distinct(free)
    requires forall p :: p in spare ==> Stage(groups, p) && p in On(AllPlans(groups))
    modifies spare
    ensures OnePerModel(chosen) && forall p :: p in chosen ==> p in spare
    ensures OtherModels(chosen, first)
    ensures GpusHeld(AllPlans(groups)) == old(GpusHeld(AllPlans(groups)))
    ensures LoopPicks(spare, true, keepOrder, free, ModelsOf(first), GpusHeld(AllPlans(groups)), chosen, [], left)
  {
    ghost var on, turned := On(AllPlans(groups)), [];
    chosen, turned, left := LoadRunning(groups, spare, ModelsOf(first), free, keepOrder, system);
    NoneTurned(spare, on, turned);
    OthersThan(chosen, first);
  }

  /** The second loading loop, when somebody has been turned away. */
  method LoadSpareIf(
      groups: Groups, spare: seq<PlanState>, first: seq<PlanState>, turned: seq<PlanState>, free: seq<nat>,
      keepOrder: bool, ghost system: Graph)
    returns (chosen: seq<PlanState>, ghost left: seq<nat>)
    requires SystemOk(groups, system) && OnePerModel(spare) && Distinct(free)
    requires forall p :: p in spare ==> Stage(groups, p) && p in On(AllPlans(groups))
    modifies spare
    ensures OnePerModel(chosen) && OtherModels(chosen, first) && forall p :: p in chosen ==> p in spare
    ensures GpusHeld(AllPlans(groups)) == old(GpusHeld(AllPlans(groups)))
    ensures if turned == [] then chosen == [] && left == free
            else LoopPicks(spare, true, keepOrder, free, ModelsOf(first), GpusHeld(AllPlans(groups)), chosen, [], left)
  {
    chosen, left := [], free;
    if turned != [] {
      chosen, left := LoadSpare(groups, spare, first, free, keepOrder, system);
    }
  }

  lemma {:induction false} PartsMade(
      first: seq<PlanState>, wait: seq<PlanState>, spare: seq<PlanState>,
      chosen1: seq<PlanState>, turned: seq<PlanState>, chosen2: seq<PlanState>)
    requires OnePerModel(chosen1) && OnePerModel(turned) && OnePerModel(chosen2)
    requires (forall p :: p in chosen1 ==> p in wait) && (forall p :: p in turned ==> p in wait && p !in chosen1)
    requires forall p :: p in wait ==> p in turned || p in chosen1
    requires OtherModels(chosen2, first + chosen1)
    requires forall p :: p in chosen2 ==> p in spare
    ensures PartsOk(first, wait, spare, chosen1, turned, chosen2)
  {
  }

  /** Both loading loops. Running plans are never added to the candidates, so the second loop turns
      nobody away. */
  method LoadBoth(
      groups: Groups, running: seq<PlanState>, cands: seq<PlanState>, target: nat, going: seq<PlanState>,
      spare: seq<PlanState>,
      tot: nat, ghost was: set<nat>, fin: set<nat>, keepOrder: bool, ghost system: Graph)
    returns (cont: seq<PlanState>, chosen1: seq<PlanState>, turned: seq<PlanState>, chosen2: seq<PlanState>,
             ghost k: Picked)
    requires StageInv(groups, running, cands, target, On(AllPlans(groups)), fin) && SystemOk(groups, system)
    requires going == Going(running, target, was) && spare == Spare(running, target, was)
    modifies AllPlans(groups)
    ensures cont == Continuing(cands, fin)
            && PartsOk(going + cont, Waiting(cands, fin), spare, chosen1, turned, chosen2)
    ensures OnMade(old(On(AllPlans(groups))), cands, fin, cont, chosen1, On(AllPlans(groups)))
    ensures forall p :: p in old(On(AllPlans(groups))) ==> p.gpus == old(p.gpus)
    ensures k.base == going + cont && k.added == chosen1 && k.turned == turned && k.kept == chosen2
    ensures RoundPicked(k, running, cands, target, was, fin, tot, keepOrder, GpusHeld(AllPlans(groups)))
  {
    CandsInSystem(groups, cands, system);
    var free;
    ghost var avail, rest;
    cont, chosen1, turned, free, avail :=
      LoadCands(groups, running, cands, target, going, tot, was, fin, keepOrder, system);
    SelectOnePerModel(running, (p: PlanState) => p.plan.model !in was && p.stage < target && !p.last);
    chosen2, rest := LoadSpareIf(groups, spare, going + cont + chosen1, turned, free, keepOrder, system);
    PartsMade(going + cont, Waiting(cands, fin), spare, chosen1, turned, chosen2);
    k := Picked(going + cont, avail, chosen1, turned, free, chosen2, rest);
  }

  /** What goes on, what continues, and what the two loading loops add. The running plans are looked
      at first, the candidates later: `was` and `fin` are the models finished by then. */
  method OneRound(
      groups: Groups, running: seq<PlanState>, cands: seq<PlanState>, target: nat, tot: nat, was: set<nat>,
      fin: set<nat>,
      keepOrder: bool, ghost system: Graph)
    returns (running': seq<PlanState>, turned: seq<PlanState>, ghost k: Picked)
    requires StageInv(groups, running, cands, target, On(AllPlans(groups)), fin) && was <= fin
             && SystemOk(groups, system)
    modifies AllPlans(groups)
    ensures RoundMade(running, cands, target, old(On(AllPlans(groups))), was, fin, running', turned,
                      On(AllPlans(groups)))
    ensures forall p :: p in running' ==> !Done(p, was)
    ensures forall p :: p in old(On(AllPlans(groups))) ==> p.gpus == old(p.gpus)
    ensures RoundPicked(k, running, cands, target, was, fin, tot, keepOrder, GpusHeld(AllPlans(groups)))
    ensures running' == k.After() && turned == k.turned
  {
    ghost var on := On(AllPlans(groups));
    var going, spare := SplitRunning(running, target, was);
    var cont, chosen1, chosen2;
    cont, chosen1, turned, chosen2, k :=
      LoadBoth(groups, running, cands, target, going, spare, tot, was, fin, keepOrder, system);
    running' := going + cont + chosen1 + chosen2;
    RoundBuilt(groups, running, cands, target, on, was, fin, chosen1, turned, chosen2, running', On(AllPlans(groups)));
  }

  method SettledRound(
      groups: Groups, running: seq<PlanState>, cands: seq<PlanState>, target: nat, tot: nat, was: set<nat>,
      fin: set<nat>,
      keepOrder: bool, ghost system: Graph)
    returns (running': seq<PlanState>, turned: seq<PlanState>, ghost k: Picked)
    requires StageInv(groups, running, cands, target, On(AllPlans(groups)), was) && was <= fin
             && SystemOk(groups, system)
    modifies AllPlans(groups)
    ensures StageInv(groups, running', CandsAfter(groups, target, turned), TargetAfter(target, turned),
                     On(AllPlans(groups)), fin)
    ensures forall p :: p in running' ==> !Done(p, was)
    ensures forall p :: p in old(On(AllPlans(groups))) ==> p.gpus == old(p.gpus)
    ensures old(On(AllPlans(groups))) <= On(AllPlans(groups))
    ensures RoundPicked(k, running, cands, target, was, fin, tot, keepOrder, GpusHeld(AllPlans(groups)))
    ensures OnePerModel(Waiting(cands, fin)) && OnePerModel(Spare(running, target, was))
    ensures running' == k.After() && turned == k.turned
  {
    ghost var on := On(AllPlans(groups));
    MoreFinished(groups, running, cands, target, on, was, fin);
    FirstPhase(groups, running, cands, target, on, was, fin);
    SelectOnePerModel(running, (p: PlanState) => p.plan.model !in was && p.stage < target && !p.last);
    running', turned, k := OneRound(groups, running, cands, target, tot, was, fin, keepOrder, system);
    Settle(groups, running, cands, target, on, was, fin, running', turned, On(AllPlans(groups)));
  }

  lemma {:induction false} Settle(
      groups: Groups, running: seq<PlanState>, cands: seq<PlanState>, target: nat, on: set<PlanState>,
      was: set<nat>, fin: set<nat>, running': seq<PlanState>, turned: seq<PlanState>, on': set<PlanState>)
    requires StageInv(groups, running, cands, target, on, fin) && was <= fin
    requires RoundMade(running, cands, target, on, was, fin, running', turned, on')
    ensures StageInv(groups, running', CandsAfter(groups, target, turned), TargetAfter(target, turned), on', fin)
  {
    if turned != [] {
      RoundStays(groups, running, cands, target, on, was, fin, running', turned, on');
    } else {
      RoundAdvances(groups, running, cands, target, on, was, fin, running', on');
    }
  }

  /** The finished models at each look: a finished model stays finished. */
  ghost predicate Growing(seen: nat -> set<nat>) {
    forall i: nat, j: nat :: i <= j ==> seen(i) <= seen(j)
  }

  /** The next round: plans to run, remaining candidates and target stage. The finish status is looked
      at three times, for the running plans, for the candidates and for the old target, and models may
      finish in between. When every candidate could be placed the next stage becomes the target, and
      if a model of the old target has finished by then the round is repeated for it at once. */
  method NextRound(
      groups: Groups, running: seq<PlanState>, cands: seq<PlanState>, target: nat, tot: nat, seen: nat -> set<nat>,
      now: nat,
      keepOrder: bool, ghost system: Graph)
    returns (running': seq<PlanState>, cands': seq<PlanState>, target': nat, now': nat, ghost picks: seq<Picked>)
    requires StageInv(groups, running, cands, target, On(AllPlans(groups)), seen(now)) && Growing(seen)
             && SystemOk(groups, system)
    modifies AllPlans(groups)
    ensures now' > now && StageInv(groups, running', cands', target', On(AllPlans(groups)), seen(now'))
            && target' >= target
    ensures forall p :: p in running' ==> !Done(p, seen(now))
    ensures target' == target ==> cands' != []
    ensures forall p :: p in old(On(AllPlans(groups))) ==> p.gpus == old(p.gpus)
    ensures old(On(AllPlans(groups))) <= On(AllPlans(groups))
    ensures Chain(groups, running, cands, target, tot, seen, now, keepOrder, GpusHeld(AllPlans(groups)), picks,
                  running',
                  cands', target', now')
    decreases |groups| - target
  {
    var turned;
    ghost var k;
    running', turned, k :=
      SettledRound(groups, running, cands, target, tot, seen(now), seen(now + 1), keepOrder, system);
    ghost var held := GpusHeld(AllPlans(groups));
    cands', target', now' := CandsAfter(groups, target, turned), TargetAfter(target, turned), now + 3;
    MoreFinished(groups, running', cands', target', On(AllPlans(groups)), seen(now + 1), seen(now + 3));
    if target < target' < |groups| && AnyDone(groups[target], seen(now + 2)) {
      running', cands', target', now', picks :=
        NextRound(groups, running', cands', target', tot, seen, now + 3, keepOrder, system);
      picks := [k] + picks;
      PickedKept(k, running, cands, target, seen(now), seen(now + 1), tot, keepOrder, held, GpusHeld(AllPlans(groups)));
    } else {
      picks := [k];
    }
    PickedGives(k, running, cands, target, seen(now), seen(now + 1), tot, keepOrder, GpusHeld(AllPlans(groups)));
  }
}
