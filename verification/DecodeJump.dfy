/** The closed-form decode jump: how many decode steps the running table can take at once. */
module DecodeJump {
  import opened Requests

  /** np.unique with counts: distinct values in increasing order. */
  datatype Bin = Bin(value: int, count: nat)

  function InsertValue(bins: seq<Bin>, v: int): seq<Bin> {
    if bins == [] || v < bins[0].value then [Bin(v, 1)] + bins
    else if v == bins[0].value then [Bin(v, bins[0].count + 1)] + bins[1..]
    else [bins[0]] + InsertValue(bins[1..], v)
  }

  function Unique(vs: seq<int>): seq<Bin> {
    if vs == [] then [] else InsertValue(Unique(vs[..|vs| - 1]), vs[|vs| - 1])
  }

  /** The value at the first position whose cumulative count exceeds `left`. */
  function FirstOver(bins: seq<Bin>, left: int): int
    requires 0 <= left < BinTotal(bins)
  {
    if left < bins[0].count then bins[0].value else FirstOver(bins[1..], left - bins[0].count)
  }

  function BinTotal(bins: seq<Bin>): nat {
    if bins == [] then 0 else bins[0].count + BinTotal(bins[1..])
  }

  /** How many of the values are at most x. */
  function CountLe(vs: seq<int>, x: int): nat {
    if vs == [] then 0
    else CountLe(vs[..|vs| - 1], x) + (if vs[|vs| - 1] <= x then 1 else 0)
  }

  function BinsLe(bins: seq<Bin>, x: int): nat {
    if bins == [] then 0
    else (if bins[0].value <= x then bins[0].count else 0) + BinsLe(bins[1..], x)
  }

  ghost predicate Sorted(bins: seq<Bin>) {
    forall i, j :: 0 <= i < j < |bins| ==> bins[i].value < bins[j].value
  }

  lemma {:induction false} InsertValueSorted(bins: seq<Bin>, v: int)
    requires Sorted(bins)
    ensures Sorted(InsertValue(bins, v))
    ensures forall b :: b in InsertValue(bins, v) ==> b.value == v || exists c :: c in bins && c.value == b.value
  {
    if bins != [] && v > bins[0].value {
      var rest := InsertValue(bins[1..], v);
      InsertValueSorted(bins[1..], v);
      forall b | b in rest ensures bins[0].value < b.value {
      }
      forall j | 0 < j < |InsertValue(bins, v)|
        ensures bins[0].value < InsertValue(bins, v)[j].value
      {
        assert rest[j - 1] in rest;
      }
    }
  }

  lemma {:induction false} InsertValueCounts(bins: seq<Bin>, v: int, x: int)
    ensures BinsLe(InsertValue(bins, v), x) == BinsLe(bins, x) + (if v <= x then 1 else 0)
    ensures BinTotal(InsertValue(bins, v)) == BinTotal(bins) + 1
  {
    if bins == [] || v < bins[0].value {
      assert ([Bin(v, 1)] + bins)[1..] == bins;
    } else if v == bins[0].value {
      assert ([Bin(v, bins[0].count + 1)] + bins[1..])[1..] == bins[1..];
    } else {
      InsertValueCounts(bins[1..], v, x);
      assert ([bins[0]] + InsertValue(bins[1..], v))[1..] == InsertValue(bins[1..], v);
    }
  }

  lemma {:induction false} UniqueCounts(vs: seq<int>, x: int)
    ensures Sorted(Unique(vs))
    ensures BinsLe(Unique(vs), x) == CountLe(vs, x)
    ensures BinTotal(Unique(vs)) == |vs|
  {
    if vs != [] {
      UniqueCounts(vs[..|vs| - 1], x);
      InsertValueSorted(Unique(vs[..|vs| - 1]), vs[|vs| - 1]);
      InsertValueCounts(Unique(vs[..|vs| - 1]), vs[|vs| - 1], x);
    }
  }

  lemma {:induction false} BinsBelow(bins: seq<Bin>, x: int)
    requires forall i :: 0 <= i < |bins| ==> x < bins[i].value
    ensures BinsLe(bins, x) == 0
  {
    if bins != [] {
      BinsBelow(bins[1..], x);
    }
  }

  lemma {:induction false} FirstOverIsThreshold(bins: seq<Bin>, left: int)
    requires Sorted(bins) && 0 <= left < BinTotal(bins)
    ensures exists i :: 0 <= i < |bins| && bins[i].value == FirstOver(bins, left)
    ensures BinsLe(bins, FirstOver(bins, left) - 1) <= left < BinsLe(bins, FirstOver(bins, left))
  {
    if left < bins[0].count {
      BinsBelow(bins[1..], bins[0].value - 1);
    } else {
      FirstOverIsThreshold(bins[1..], left - bins[0].count);
      var i :| 0 <= i < |bins[1..]| && bins[1..][i].value == FirstOver(bins[1..], left - bins[0].count);
      assert bins[i + 1].value == FirstOver(bins, left);
    }
  }

  /** Steps a running request can take before its last block is full, plus one. */
  function ExtraSteps(r: Req, bs: int): int
    requires bs >= 1
  {
    (-r.len + 1) % bs + 1
  }

  function Extras(run: seq<Req>, bs: int): (e: seq<int>)
    requires bs >= 1
  {
    seq(|run|, i requires 0 <= i < |run| => ExtraSteps(run[i], bs))
  }

  function MinRem(run: seq<Req>): int
    requires run != []
  {
    if |run| == 1 then run[0].rem
    else
      var m := MinRem(run[..|run| - 1]);
      if run[|run| - 1].rem < m then run[|run| - 1].rem else m
  }

  /** The number of steps the free cache blocks allow. */
  function CacheSteps(run: seq<Req>, used: int, lim: Limits): int
    requires run != [] && lim.blockSize >= 1
  {
    UniqueCounts(Extras(run, lim.blockSize), 0);
    (lim.maxBlocks - used) / |run| * lim.blockSize
    + FirstOver(Unique(Extras(run, lim.blockSize)), (lim.maxBlocks - used) % |run|) - 1
  }

  function IterNum(run: seq<Req>, used: int, lim: Limits): int
    requires run != [] && lim.blockSize >= 1
  {
    var c := CacheSteps(run, used, lim);
    if MinRem(run) <= c then MinRem(run) else c
  }

  // ----- the jump is exact

  lemma {:induction false} DivUnique(x: int, q: int, r: int, d: int)
    requires d >= 1 && x == q * d + r && 0 <= r < d
    ensures x / d == q && x % d == r
  {
    var q', r' := x / d, x % d;
    assert q' * d + r' == x;
    MulNext(q, d);
    MulNext(q', d);
    if q < q' {
      MulMono(q + 1, q', d);
    } else if q' < q {
      MulMono(q' + 1, q, d);
    }
  }

  /** One request: a full cycle of blockSize steps costs one block, the leftover steps cost one
      more exactly when they reach the request's extra-step count. */
  lemma {:induction false} CeilDivSplit(r: Req, q: int, s: int, bs: int)
    requires bs >= 1 && 0 <= s < bs
    ensures CeilDiv(r.len - 1 + (q * bs + s), bs)
            == CeilDiv(r.len - 1, bs) + q + (if ExtraSteps(r, bs) <= s then 1 else 0)
  {
    var m := r.len - 1;
    var slack := (-m) % bs;
    var c := -((-m) / bs);
    assert -m == (-m) / bs * bs + slack;
    assert m == c * bs - slack by { assert c * bs == -((-m) / bs * bs); }
    DivUnique(m + bs - 1, c, bs - 1 - slack, bs);
    assert (c + q) * bs == c * bs + q * bs;
    var n := m + (q * bs + s) + bs - 1;
    if slack < s {
      assert (c + q + 1) * bs == (c + q) * bs + bs;
      DivUnique(n, c + q + 1, s - slack - 1, bs);
    } else {
      DivUnique(n, c + q, bs - 1 - slack + s, bs);
    }
  }

  lemma {:induction false} BlocksSplit(run: seq<Req>, q: int, s: int, bs: int)
    requires bs >= 1 && 0 <= s < bs
    ensures Blocks(run, q * bs + s, bs)
            == Blocks(run, 0, bs) + |run| * q + CountLe(Extras(run, bs), s)
  {
    if run == [] {
      assert 0 * q == 0;
    } else {
      var last := |run| - 1;
      BlocksSplit(run[..last], q, s, bs);
      CeilDivSplit(run[last], q, s, bs);
      assert Extras(run, bs)[..last] == Extras(run[..last], bs);
      MulNext(last, q);
    }
  }

  lemma {:induction false} CountLeZero(run: seq<Req>, bs: int)
    requires bs >= 1
    ensures CountLe(Extras(run, bs), 0) == 0
  {
    if run != [] {
      assert Extras(run, bs)[..|run| - 1] == Extras(run[..|run| - 1], bs);
      CountLeZero(run[..|run| - 1], bs);
    }
  }

  lemma {:induction false} CountLeMember(vs: seq<int>, x: int)
    requires x !in vs
    ensures CountLe(vs, x) == CountLe(vs, x - 1)
  {
    if vs != [] {
      assert vs[|vs| - 1] in vs;
      CountLeMember(vs[..|vs| - 1], x);
    }
  }

  /** The extra-step count the code selects: between 1 and blockSize, reached by more running
      requests than there are spare blocks, while the previous count is not. */
  lemma {:induction false} Threshold(run: seq<Req>, left: int, bs: int)
    requires run != [] && bs >= 1 && 0 <= left < |run|
    ensures BinTotal(Unique(Extras(run, bs))) == |run|
    ensures var v := FirstOver(Unique(Extras(run, bs)), left);
            1 <= v <= bs && CountLe(Extras(run, bs), v - 1) <= left < CountLe(Extras(run, bs), v)
  {
    var es := Extras(run, bs);
    UniqueCounts(es, 0);
    var v := FirstOver(Unique(es), left);
    FirstOverIsThreshold(Unique(es), left);
    UniqueCounts(es, v);
    UniqueCounts(es, v - 1);
    if v !in es {
      CountLeMember(es, v);
      assert false;
    }
  }

  lemma {:induction false} FitsAtBest(run: seq<Req>, q: int, left: int, max: int, bs: int)
    requires run != [] && bs >= 1 && 0 <= left < |run|
    requires max == Blocks(run, 0, bs) + |run| * q + left
    ensures BinTotal(Unique(Extras(run, bs))) == |run|
    ensures var best := q * bs + (FirstOver(Unique(Extras(run, bs)), left) - 1);
            Blocks(run, best, bs) <= max < Blocks(run, best + 1, bs)
  {
    Threshold(run, left, bs);
    var v := FirstOver(Unique(Extras(run, bs)), left);
    BlocksSplit(run, q, v - 1, bs);
    if v < bs {
      BlocksSplit(run, q, v, bs);
    } else {
      BlocksSplit(run, q + 1, 0, bs);
      CountLeZero(run, bs);
      MulNext(q, bs);
      MulNext(q, |run|);
      assert q * bs + (v - 1) + 1 == (q + 1) * bs + 0;
    }
  }

  /** The closed form is the largest number of steps that does not overflow the cache. */
  lemma {:induction false} JumpExact(run: seq<Req>, lim: Limits)
    requires run != [] && lim.blockSize >= 1
    requires Blocks(run, 0, lim.blockSize) <= lim.maxBlocks
    ensures CacheSteps(run, Blocks(run, 0, lim.blockSize), lim) >= 0
    ensures forall k :: Blocks(run, k, lim.blockSize) <= lim.maxBlocks
                        <==> k <= CacheSteps(run, Blocks(run, 0, lim.blockSize), lim)
  {
    var bs, used := lim.blockSize, Blocks(run, 0, lim.blockSize);
    var free := lim.maxBlocks - used;
    var best := CacheSteps(run, used, lim);
    FitsAtBest(run, free / |run|, free % |run|, lim.maxBlocks, bs);
    forall k ensures Blocks(run, k, bs) <= lim.maxBlocks <==> k <= best {
      if k <= best {
        BlocksMono(run, k, best, bs);
      } else {
        BlocksMono(run, best + 1, k, bs);
      }
    }
  }

  // ----- the jump equals stepping

  /** Decode one token at a time until some request is done or one more step would not fit. */
  function StepUntilStop(run: seq<Req>, lim: Limits): seq<Req>
    requires run != [] && lim.blockSize >= 1
    decreases if MinRem(run) >= 0 then MinRem(run) else 0
  {
    if MinRem(run) <= 0 || Blocks(run, 1, lim.blockSize) > lim.maxBlocks then run
    else
      MinRemAdvance(run, 1);
      StepUntilStop(Advance(run, 1), lim)
  }

  lemma {:induction false} MinRemAdvance(run: seq<Req>, k: int)
    requires run != []
    ensures MinRem(Advance(run, k)) == MinRem(run) - k
  {
    if |run| > 1 {
      MinRemAdvance(run[..|run| - 1], k);
      assert Advance(run, k)[..|run| - 1] == Advance(run[..|run| - 1], k);
    }
  }

  lemma {:induction false} MinRemBound(run: seq<Req>)
    requires run != []
    ensures forall i :: 0 <= i < |run| ==> MinRem(run) <= run[i].rem
    ensures exists i :: 0 <= i < |run| && MinRem(run) == run[i].rem
  {
    if |run| == 1 {
      assert MinRem(run) == run[0].rem;
    } else {
      var front := run[..|run| - 1];
      MinRemBound(front);
      var j :| 0 <= j < |front| && MinRem(front) == front[j].rem;
      assert run[j] == front[j];
      assert forall i :: 0 <= i < |front| ==> run[i] == front[i];
      assert MinRem(run) == run[j].rem || MinRem(run) == run[|run| - 1].rem;
    }
  }

  lemma {:induction false} SteppingReaches(run: seq<Req>, k: nat, lim: Limits)
    requires run != [] && lim.blockSize >= 1
    requires k <= MinRem(run) && Blocks(run, k, lim.blockSize) <= lim.maxBlocks
    requires k == MinRem(run) || Blocks(run, k + 1, lim.blockSize) > lim.maxBlocks
    ensures StepUntilStop(run, lim) == Advance(run, k)
    decreases k
  {
    if k == 0 {
      assert Advance(run, 0) == run;
    } else {
      BlocksMono(run, 1, k, lim.blockSize);
      MinRemAdvance(run, 1);
      BlocksAdvance(run, 1, k - 1, lim.blockSize);
      BlocksAdvance(run, 1, k, lim.blockSize);
      SteppingReaches(Advance(run, 1), k - 1, lim);
      assert Advance(Advance(run, 1), k - 1) == Advance(run, k);
    }
  }

  /** Jumping IterNum steps at once is decoding one token at a time until a request finishes or
      the cache would overflow; no step on the way overflows it, and a table that has room for
      one step makes progress. */
  lemma {:induction false} JumpIsStepping(run: seq<Req>, lim: Limits)
    requires run != [] && lim.blockSize >= 1 && MinRem(run) >= 1
    requires Blocks(run, 0, lim.blockSize) <= lim.maxBlocks
    ensures var k := IterNum(run, Blocks(run, 0, lim.blockSize), lim);
            && 0 <= k <= MinRem(run)
            && Advance(run, k) == StepUntilStop(run, lim)
            && (forall j :: j <= k ==> Blocks(run, j, lim.blockSize) <= lim.maxBlocks)
            && (Blocks(run, 1, lim.blockSize) <= lim.maxBlocks ==> k >= 1)
  {
    JumpExact(run, lim);
    SteppingReaches(run, IterNum(run, Blocks(run, 0, lim.blockSize), lim), lim);
  }
}
