/** Greedy packing of the admitted prompts into prefill batches. Every prompt of a batch is padded
    to the longest one, so a batch costs its longest length times its size. */
module Packing {
  import opened Requests

  datatype Prompt = Prompt(id: nat, len: int)

  function MaxLen(b: seq<Prompt>): int
    requires b != []
  {
    if |b| == 1 then b[0].len
    else
      var m := MaxLen(b[..|b| - 1]);
      if b[|b| - 1].len > m then b[|b| - 1].len else m
  }

  predicate Fits(b: seq<Prompt>, budget: int) {
    b != [] && MaxLen(b) * |b| <= budget
  }

  /** The packing loop with an open batch `cur`. */
  function Greedy(cur: seq<Prompt>, rest: seq<Prompt>, budget: int): seq<seq<Prompt>>
    decreases |rest|
  {
    if rest == [] then [cur]
    else if Fits(cur + [rest[0]], budget) then Greedy(cur + [rest[0]], rest[1..], budget)
    else [cur] + Greedy([rest[0]], rest[1..], budget)
  }

  /** The outcome of packing: closing the initial empty batch is an error (the maximum of an
      empty list), which happens exactly when the first prompt is over the budget. */
  datatype Packed = Batches(batches: seq<seq<Prompt>>) | EmptyBatch

  function Pack(prompts: seq<Prompt>, budget: int): Packed {
    if prompts == [] then Batches([])
    else if !Fits([prompts[0]], budget) then EmptyBatch
    else Batches(Greedy([prompts[0]], prompts[1..], budget))
  }

  function Flatten(bs: seq<seq<Prompt>>): seq<Prompt> {
    if bs == [] then [] else bs[0] + Flatten(bs[1..])
  }

  ghost predicate AllFit(bs: seq<seq<Prompt>>, budget: int) {
    forall i :: 0 <= i < |bs| ==> Fits(bs[i], budget)
  }

  ghost predicate NonNegative(ps: seq<Prompt>) {
    forall i :: 0 <= i < |ps| ==> ps[i].len >= 0
  }

  lemma {:induction false} MaxLenBound(b: seq<Prompt>)
    requires b != []
    ensures forall i :: 0 <= i < |b| ==> b[i].len <= MaxLen(b)
    ensures exists i :: 0 <= i < |b| && b[i].len == MaxLen(b)
  {
    if |b| == 1 {
      assert b[0].len == MaxLen(b);
    } else {
      var front := b[..|b| - 1];
      MaxLenBound(front);
      var j :| 0 <= j < |front| && front[j].len == MaxLen(front);
      assert b[j] == front[j];
      assert forall i :: 0 <= i < |front| ==> b[i] == front[i];
      assert b[j].len == MaxLen(b) || b[|b| - 1].len == MaxLen(b);
    }
  }

  lemma {:induction false} ProductMono(m: int, mm: int, c: int, cc: int)
    requires 0 <= m <= mm && 0 <= c <= cc
    ensures m * c <= mm * cc
  {
    MulMono(m, mm, c);
    MulMono(c, cc, mm);
  }

  /** The bound is inherited by every non-empty stretch of a batch. */
  lemma {:induction false} FitsStretch(b: seq<Prompt>, i: nat, j: nat, budget: int)
    requires NonNegative(b) && Fits(b, budget) && i < j <= |b|
    ensures Fits(b[i..j], budget)
  {
    var s := b[i..j];
    MaxLenBound(b);
    MaxLenBound(s);
    var k :| 0 <= k < |s| && s[k].len == MaxLen(s);
    assert s[k] == b[i + k];
    ProductMono(MaxLen(s), MaxLen(b), |s|, |b|);
  }

  lemma {:induction false} GreedyKeepsPrompts(cur: seq<Prompt>, rest: seq<Prompt>, budget: int)
    requires cur != []
    ensures Flatten(Greedy(cur, rest, budget)) == cur + rest
    ensures forall i :: 0 <= i < |Greedy(cur, rest, budget)| ==> Greedy(cur, rest, budget)[i] != []
    decreases |rest|
  {
    if rest == [] {
      assert Flatten([cur]) == cur + Flatten([]);
    } else if Fits(cur + [rest[0]], budget) {
      GreedyKeepsPrompts(cur + [rest[0]], rest[1..], budget);
      assert cur + [rest[0]] + rest[1..] == cur + rest;
    } else {
      GreedyKeepsPrompts([rest[0]], rest[1..], budget);
      assert ([cur] + Greedy([rest[0]], rest[1..], budget))[1..] == Greedy([rest[0]], rest[1..], budget);
      assert [rest[0]] + rest[1..] == rest;
    }
  }

  lemma {:induction false} GreedyFits(cur: seq<Prompt>, rest: seq<Prompt>, budget: int)
    requires Fits(cur, budget)
    requires forall i :: 0 <= i < |rest| ==> rest[i].len <= budget
    ensures AllFit(Greedy(cur, rest, budget), budget)
    decreases |rest|
  {
    if rest != [] {
      if Fits(cur + [rest[0]], budget) {
        GreedyFits(cur + [rest[0]], rest[1..], budget);
      } else {
        GreedyFits([rest[0]], rest[1..], budget);
      }
    }
  }

  /** Packing keeps the prompts in order, and every batch respects the token budget if and only
      if every single prompt does. */
  lemma {:induction false} PackSound(prompts: seq<Prompt>, budget: int)
    requires NonNegative(prompts)
    ensures Pack(prompts, budget).Batches? ==> Flatten(Pack(prompts, budget).batches) == prompts
    ensures Pack(prompts, budget).EmptyBatch? <==> prompts != [] && prompts[0].len > budget
    ensures Pack(prompts, budget).Batches? && AllFit(Pack(prompts, budget).batches, budget)
            <==> forall i :: 0 <= i < |prompts| ==> prompts[i].len <= budget
  {
    if prompts != [] && Fits([prompts[0]], budget) {
      var bs := Greedy([prompts[0]], prompts[1..], budget);
      GreedyKeepsPrompts([prompts[0]], prompts[1..], budget);
      if forall i :: 0 <= i < |prompts| ==> prompts[i].len <= budget {
        GreedyFits([prompts[0]], prompts[1..], budget);
      }
      if AllFit(bs, budget) {
        FittingPrompts(bs, budget);
      }
    }
  }

  lemma {:induction false} FittingPrompts(bs: seq<seq<Prompt>>, budget: int)
    requires AllFit(bs, budget) && NonNegative(Flatten(bs))
    ensures forall i :: 0 <= i < |Flatten(bs)| ==> Flatten(bs)[i].len <= budget
  {
    if bs != [] {
      var b, rest := bs[0], Flatten(bs[1..]);
      assert forall i :: 0 <= i < |rest| ==> rest[i] == Flatten(bs)[|b| + i];
      assert forall i :: 0 <= i < |b| ==> b[i] == Flatten(bs)[i];
      FittingPrompts(bs[1..], budget);
      MaxLenBound(b);
      var k :| 0 <= k < |b| && b[k].len == MaxLen(b);
      MulMono(1, |b|, MaxLen(b));
    }
  }

  /** Greedy stays ahead: against any legal packing q of the open batch, everything before it and the
      rest, the greedy packing has consumed at least as much after any number of batches, and needs no
      more of them from here on. */
  lemma {:induction false} GreedyStaysAhead(
      z: seq<Prompt>, cur: seq<Prompt>, rest: seq<Prompt>, q: seq<seq<Prompt>>, budget: int)
    requires cur != [] && NonNegative(z + cur + rest)
    requires Flatten(q) == z + cur + rest && AllFit(q, budget)
    ensures |Greedy(cur, rest, budget)| <= |q|
    ensures forall k: nat :: k <= |Greedy(cur, rest, budget)| ==>
              |z| + |Flatten(Greedy(cur, rest, budget)[..k])| >= |Flatten(q[..k])|
    decreases |rest|
  {
    if rest == [] {
      FlattenLast(cur, q);
    } else if Fits(cur + [rest[0]], budget) {
      assert z + (cur + [rest[0]]) + rest[1..] == z + cur + rest;
      GreedyStaysAhead(z, cur + [rest[0]], rest[1..], q, budget);
    } else {
      FirstBatchIsShort(z, cur, rest, q[0], Flatten(q[1..]), budget);
      var z' := (z + cur)[|q[0]|..];
      assert Flatten(q[1..]) == z' + [rest[0]] + rest[1..];
      assert NonNegative(z' + [rest[0]] + rest[1..]) by {
        assert forall i :: 0 <= i < |Flatten(q[1..])| ==> Flatten(q[1..])[i] == Flatten(q)[|q[0]| + i];
      }
      GreedyStaysAhead(z', [rest[0]], rest[1..], q[1..], budget);
      AheadByOne(z, cur, Greedy([rest[0]], rest[1..], budget), q);
    }
  }

  /** With nothing left to pack the open batch takes all there is. */
  lemma {:induction false} FlattenLast(cur: seq<Prompt>, q: seq<seq<Prompt>>)
    ensures [cur][..0] == [] && [cur][..1] == [cur] && Flatten([cur]) == cur && q[..0] == []
    ensures q != [] ==> |Flatten(q[..1])| <= |Flatten(q)|
  {
    assert Flatten([cur]) == cur + Flatten([]);
    if q != [] {
      assert q[..1] == [q[0]] && q[..1][1..] == [];
      assert Flatten(q[..1]) == q[0] + Flatten([]);
    }
  }

  /** One closed batch in front on either side. */
  lemma {:induction false} AheadByOne(z: seq<Prompt>, cur: seq<Prompt>, bs: seq<seq<Prompt>>, q: seq<seq<Prompt>>)
    requires q != [] && |bs| <= |q[1..]|
    requires forall k: nat :: k <= |bs| ==>
               |z| + |cur| - |q[0]| + |Flatten(bs[..k])| >= |Flatten(q[1..][..k])|
    ensures forall k: nat :: k <= |bs| + 1 ==> |z| + |Flatten(([cur] + bs)[..k])| >= |Flatten(q[..k])|
  {
    forall k: nat | k <= |bs| + 1 ensures |z| + |Flatten(([cur] + bs)[..k])| >= |Flatten(q[..k])| {
      if k == 0 {
        assert q[..0] == [];
      } else {
        assert ([cur] + bs)[..k] == [cur] + bs[..k - 1] && ([cur] + bs)[..k][1..] == bs[..k - 1];
        assert q[..k][0] == q[0] && q[..k][1..] == q[1..][..k - 1];
      }
    }
  }

  lemma {:induction false} LongFirstBatch(
      z: seq<Prompt>, cur: seq<Prompt>, rest: seq<Prompt>, first: seq<Prompt>, others: seq<Prompt>, budget: int)
    requires rest != [] && NonNegative(z + cur + rest)
    requires first + others == z + cur + rest && Fits(first, budget)
    requires |first| > |z| + |cur|
    ensures Fits(cur + [rest[0]], budget)
  {
    var all, n, end := z + cur + rest, |first|, |z| + |cur| + 1;
    assert first == all[..n];
    assert forall i :: 0 <= i < n ==> first[i] == all[i];
    FitsStretch(first, |z|, end, budget);
    assert first[|z|..end] == all[|z|..end];
    assert all[|z|..end] == cur + [rest[0]];
  }

  lemma {:induction false} FirstBatchIsShort(
      z: seq<Prompt>, cur: seq<Prompt>, rest: seq<Prompt>, first: seq<Prompt>, others: seq<Prompt>, budget: int)
    requires rest != [] && NonNegative(z + cur + rest)
    requires first + others == z + cur + rest && Fits(first, budget)
    requires !Fits(cur + [rest[0]], budget)
    ensures |first| <= |z| + |cur|
    ensures others == (z + cur)[|first|..] + [rest[0]] + rest[1..]
  {
    if |first| > |z| + |cur| {
      LongFirstBatch(z, cur, rest, first, others, budget);
    }
    assert others == (z + cur + rest)[|first|..];
    assert rest == [rest[0]] + rest[1..];
  }

  /** No way of cutting the prompts into consecutive batches within the budget uses fewer, and none
      has consumed more prompts after as many batches. */
  lemma {:induction false} PackOptimal(prompts: seq<Prompt>, q: seq<seq<Prompt>>, budget: int)
    requires NonNegative(prompts)
    requires Flatten(q) == prompts && AllFit(q, budget)
    ensures Pack(prompts, budget).Batches? && AllFit(Pack(prompts, budget).batches, budget)
    ensures |Pack(prompts, budget).batches| <= |q|
    ensures forall k: nat :: k <= |Pack(prompts, budget).batches| ==>
              |Flatten(Pack(prompts, budget).batches[..k])| >= |Flatten(q[..k])|
  {
    FittingPrompts(q, budget);
    PackSound(prompts, budget);
    if prompts != [] {
      assert [] + [prompts[0]] + prompts[1..] == prompts;
      GreedyStaysAhead([], [prompts[0]], prompts[1..], q, budget);
    }
  }
}
