/** The arrays a restart returns: the ranges of all requests in one list, and the finish times. */
module RestartArrays {
  import opened RestartPlan
  import opened RestartScan

  /** The requests that still have iterations. */
  function Alive(plan: seq<seq<Rng>>): (ids: seq<nat>)
    ensures forall k :: 0 <= k < |ids| ==> ids[k] < |plan| && plan[ids[k]] != []
    ensures forall i: nat :: i < |plan| && plan[i] != [] ==> i in ids
    ensures forall j, k :: 0 <= j < k < |ids| ==> ids[j] < ids[k]
    decreases |plan|
  {
    if plan == [] then []
    else
      var last := |plan| - 1;
      Alive(plan[..last]) + (if plan[last] != [] then [last] else [])
  }

  lemma {:induction false} AliveMore(plan: seq<seq<Rng>>, rs: seq<Rng>)
    ensures Alive(plan + [rs]) == if rs != [] then Alive(plan) + [|plan|] else Alive(plan)
  {
    assert (plan + [rs])[..|plan|] == plan;
  }

  function StartsOf(rs: seq<Rng>): (s: seq<int>)
    ensures |s| == |rs| && forall k :: 0 <= k < |s| ==> s[k] == rs[k].start
  {
    seq(|rs|, k requires 0 <= k < |rs| => rs[k].start)
  }

  function EndsOf(rs: seq<Rng>): (s: seq<int>)
    ensures |s| == |rs| && forall k :: 0 <= k < |s| ==> s[k] == rs[k].end
  {
    seq(|rs|, k requires 0 <= k < |rs| => rs[k].end)
  }

  /** The ranges of all requests one behind the other; `nums` counts them up, one entry for each
      request that has any. */
  datatype Flat = Flat(nums: seq<int>, starts: seq<int>, ends: seq<int>)

  function FlatMore(f: Flat, rs: seq<Rng>): Flat {
    if rs == [] then f
    else Flat(f.nums + [|f.starts| + |rs|], f.starts + StartsOf(rs), f.ends + EndsOf(rs))
  }

  function FlatOf(plan: seq<seq<Rng>>): Flat
    decreases |plan|
  {
    if plan == [] then Flat([0], [], []) else FlatMore(FlatOf(plan[..|plan| - 1]), plan[|plan| - 1])
  }

  /** Entry k of the flat form is the given list of ranges. */
  ghost predicate FlatAt(f: Flat, k: nat, rs: seq<Rng>) {
    && k + 1 < |f.nums| && 0 <= f.nums[k] < f.nums[k + 1] <= |f.starts| == |f.ends|
    && f.starts[f.nums[k]..f.nums[k + 1]] == StartsOf(rs)
    && f.ends[f.nums[k]..f.nums[k + 1]] == EndsOf(rs)
  }

  lemma {:induction false} FlatOneMore(plan: seq<seq<Rng>>, rs: seq<Rng>)
    ensures FlatOf(plan + [rs]) == FlatMore(FlatOf(plan), rs)
  {
    assert (plan + [rs])[..|plan|] == plan;
  }

  ghost predicate Counted(f: Flat) {
    f.nums != [] && f.nums[0] == 0 && f.nums[|f.nums| - 1] == |f.starts| == |f.ends|
  }

  lemma {:induction false} FlatKeeps(f: Flat, rs: seq<Rng>, k: nat, q: seq<Rng>)
    requires Counted(f) && FlatAt(f, k, q)
    ensures FlatAt(FlatMore(f, rs), k, q)
  {
    var g := FlatMore(f, rs);
    assert g.starts[f.nums[k]..f.nums[k + 1]] == f.starts[f.nums[k]..f.nums[k + 1]];
    assert g.ends[f.nums[k]..f.nums[k + 1]] == f.ends[f.nums[k]..f.nums[k + 1]];
  }

  lemma {:induction false} FlatAdds(f: Flat, rs: seq<Rng>)
    requires Counted(f) && rs != []
    ensures FlatAt(FlatMore(f, rs), |f.nums| - 1, rs)
  {
  }

  /** The flat form holds the ranges of the requests that have any, each in its place. */
  lemma {:induction false} FlatFacts(plan: seq<seq<Rng>>)
    ensures Counted(FlatOf(plan)) && |FlatOf(plan).nums| == |Alive(plan)| + 1
    ensures forall k :: 0 <= k < |Alive(plan)| ==> FlatAt(FlatOf(plan), k, plan[Alive(plan)[k]])
    decreases |plan|
  {
    if plan != [] {
      var front, rs := plan[..|plan| - 1], plan[|plan| - 1];
      FlatFacts(front);
      forall k | 0 <= k < |Alive(plan)| ensures FlatAt(FlatOf(plan), k, plan[Alive(plan)[k]]) {
        if k < |Alive(front)| {
          FlatKeeps(FlatOf(front), rs, k, front[Alive(front)[k]]);
        } else {
          FlatAdds(FlatOf(front), rs);
        }
      }
    }
  }

  /** One past the largest entry; 0 if there is none. */
  function Highest(s: seq<int>): (h: int)
    ensures h >= 0 && forall k :: 0 <= k < |s| ==> s[k] < h
    ensures h > 0 ==> h - 1 in s
  {
    if s == [] then 0
    else
      var h, last := Highest(s[..|s| - 1]), s[|s| - 1];
      if last + 1 > h then last + 1 else h
  }

  /** The largest end is where the plan ends. */
  lemma {:induction false} HighestEnd(plan: seq<seq<Rng>>, hi: int)
    requires PlanOrdered(plan, hi)
    ensures Highest(FlatOf(plan).ends) == PlanEnd(plan)
    decreases |plan|
  {
    if plan != [] {
      var front, rs := plan[..|plan| - 1], plan[|plan| - 1];
      assert Ordered(rs, 0, hi);
      HighestEnd(front, hi);
      HighestMore(FlatOf(front).ends, EndsOf(rs));
      if rs != [] {
        HighestLast(EndsOf(rs));
      } else {
        assert FlatOf(front).ends + [] == FlatOf(front).ends;
      }
    }
  }

  lemma {:induction false} HighestMore(s: seq<int>, t: seq<int>)
    ensures Highest(s + t) == if Highest(t) > Highest(s) then Highest(t) else Highest(s)
  {
    if t == [] {
      assert s + t == s;
    } else {
      HighestMore(s, t[..|t| - 1]);
      assert (s + t)[..|s + t| - 1] == s + t[..|t| - 1];
    }
  }

  lemma {:induction false} HighestLast(s: seq<int>)
    requires s != [] && forall j, k :: 0 <= j < k < |s| ==> s[j] < s[k]
    requires s[0] >= 0
    ensures Highest(s) == s[|s| - 1] + 1
  {
    var last := |s| - 1;
    assert forall k :: 0 <= k < last ==> s[k] < s[last];
    if Highest(s) - 1 in s {
      var k :| 0 <= k < |s| && s[k] == Highest(s) - 1;
    }
  }

  /** A request finishes at the clock reading of its last iteration. */
  ghost predicate FinishesAt(cum: seq<real>, rs: seq<Rng>, time: real) {
    rs != [] && 0 <= rs[|rs| - 1].end < |cum| && time == cum[rs[|rs| - 1].end]
  }

  lemma {:induction false} LastOf(f: Flat, k: nat, rs: seq<Rng>)
    requires FlatAt(f, k, rs)
    ensures rs != [] && 1 <= f.nums[k + 1] <= |f.ends| && f.ends[f.nums[k + 1] - 1] == rs[|rs| - 1].end
  {
    var part := f.ends[f.nums[k]..f.nums[k + 1]];
    assert part == EndsOf(rs);
    assert part[|part| - 1] == f.ends[f.nums[k + 1] - 1];
  }

  lemma {:induction false} LastEnd(plan: seq<seq<Rng>>, cum: seq<real>, f: Flat, alive: seq<nat>, k: nat)
    requires PlanOrdered(plan, |cum|) && alive == Alive(plan) && f == FlatOf(plan) && k < |alive|
    ensures k + 1 < |f.nums| && 1 <= f.nums[k + 1] <= |f.ends| && 0 <= f.ends[f.nums[k + 1] - 1] < |cum|
    ensures FinishesAt(cum, plan[alive[k]], cum[f.ends[f.nums[k + 1] - 1]])
  {
    var i := alive[k];
    FlatFacts(plan);
    LastOf(f, k, plan[i]);
    assert Ordered(plan[i], 0, |cum|);
  }

  /** Finish times of the requests that still have iterations. */
  method FinishTimes(cum: seq<real>, flat: Flat, ghost plan: seq<seq<Rng>>) returns (finish: seq<real>)
    requires flat == FlatOf(plan) && PlanOrdered(plan, |cum|)
    ensures |finish| == |Alive(plan)|
    ensures forall k :: 0 <= k < |finish| ==> FinishesAt(cum, plan[Alive(plan)[k]], finish[k])
  {
    ghost var alive := Alive(plan);
    assert |flat.nums| == |alive| + 1 by {
      FlatFacts(plan);
    }
    finish := [];
    for k := 1 to |flat.nums|
      invariant |finish| == k - 1
      invariant forall j :: 0 <= j < |finish| ==> FinishesAt(cum, plan[alive[j]], finish[j])
    {
      LastEnd(plan, cum, flat, alive, k - 1);
      finish := finish + [cum[flat.ends[flat.nums[k] - 1]]];
    }
  }
}
