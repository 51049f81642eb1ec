/** Requests, limits and the paged-cache arithmetic shared by every part of the simulator. */
module Requests {

  /** A request on its way through the simulator. Waiting requests hold the prompt length to
      prefill and the tokens still to generate; running ones hold the current length. */
  datatype Req = Req(id: nat, len: int, rem: int)

  /** The limits of one simulated engine. */
  datatype Limits = Limits(maxSeqs: int, maxBlocks: int, maxTokens: int, blockSize: int) {
    ghost predicate Valid() {
      maxSeqs >= 1 && maxBlocks >= 1 && maxTokens >= 1 && blockSize >= 1
    }
  }

  /** Python's (n + d - 1) // d. */
  function CeilDiv(n: int, d: int): int
    requires d >= 1
  {
    (n + d - 1) / d
  }

  lemma {:induction false} CeilDivLeast(n: int, d: int, c: int)
    requires d >= 1
    ensures CeilDiv(n, d) <= c <==> n <= c * d
  {
    var q := CeilDiv(n, d);
    var r := (n + d - 1) % d;
    assert n + d - 1 == q * d + r;
    if q <= c {
      assert q * d <= c * d;
    } else {
      assert (q - 1) * d >= c * d by { assert q - 1 >= c; MulMono(c, q - 1, d); }
      assert (q - 1) * d == q * d - d;
    }
  }

  lemma {:induction false} MulMono(a: int, b: int, d: int)
    requires a <= b && d >= 0
    ensures a * d <= b * d
  {
  }

  lemma {:induction false} MulNext(q: int, d: int)
    ensures (q + 1) * d == q * d + d
    ensures d * (q + 1) == d * q + d
  {
  }

  lemma {:induction false} CeilDivMono(m: int, n: int, d: int)
    requires d >= 1 && m <= n
    ensures CeilDiv(m, d) <= CeilDiv(n, d)
  {
    CeilDivLeast(m, d, CeilDiv(n, d));
    CeilDivLeast(n, d, CeilDiv(n, d));
  }

  lemma {:induction false} CeilDivNext(n: int, d: int)
    requires d >= 1
    ensures CeilDiv(n, d) <= CeilDiv(n + 1, d) <= CeilDiv(n, d) + 1
  {
    CeilDivMono(n, n + 1, d);
    CeilDivLeast(n + 1, d, CeilDiv(n, d) + 1);
    CeilDivLeast(n, d, CeilDiv(n, d));
    assert (CeilDiv(n, d) + 1) * d == CeilDiv(n, d) * d + d;
  }

  lemma {:induction false} CeilDivPositive(n: int, d: int)
    requires d >= 1 && n >= 0
    ensures CeilDiv(n, d) >= 0
    ensures n >= 1 ==> CeilDiv(n, d) >= 1
  {
    CeilDivLeast(n, d, -1);
    CeilDivLeast(n, d, 0);
    assert -1 * d < 0;
  }

  /** Cache blocks of the running requests once each has stored k more tokens. */
  function Blocks(run: seq<Req>, k: int, bs: int): int
    requires bs >= 1
  {
    if run == [] then 0
    else
      var last := |run| - 1;
      Blocks(run[..last], k, bs) + CeilDiv(run[last].len - 1 + k, bs)
  }

  lemma {:induction false} BlocksAppend(run: seq<Req>, r: Req, k: int, bs: int)
    requires bs >= 1
    ensures Blocks(run + [r], k, bs) == Blocks(run, k, bs) + CeilDiv(r.len - 1 + k, bs)
  {
    assert (run + [r])[..|run|] == run;
  }

  lemma {:induction false} BlocksMono(run: seq<Req>, j: int, k: int, bs: int)
    requires bs >= 1 && j <= k
    ensures Blocks(run, j, bs) <= Blocks(run, k, bs)
  {
    if run != [] {
      var last := |run| - 1;
      BlocksMono(run[..last], j, k, bs);
      CeilDivMono(run[last].len - 1 + j, run[last].len - 1 + k, bs);
    }
  }

  ghost predicate LensPositive(run: seq<Req>) {
    forall i :: 0 <= i < |run| ==> run[i].len >= 1
  }

  lemma {:induction false} BlocksNonNegative(run: seq<Req>, k: int, bs: int)
    requires bs >= 1 && k >= 0 && LensPositive(run)
    ensures Blocks(run, k, bs) >= 0
  {
    if run != [] {
      var last := |run| - 1;
      BlocksNonNegative(run[..last], k, bs);
      CeilDivPositive(run[last].len - 1 + k, bs);
    }
  }

  /** The running table after k decode steps. */
  function Advance(run: seq<Req>, k: int): (r: seq<Req>) {
    seq(|run|, i requires 0 <= i < |run| => Req(run[i].id, run[i].len + k, run[i].rem - k))
  }

  lemma {:induction false} BlocksAdvance(run: seq<Req>, j: int, k: int, bs: int)
    requires bs >= 1
    ensures Blocks(Advance(run, j), k, bs) == Blocks(run, j + k, bs)
  {
    if run != [] {
      var last := |run| - 1;
      BlocksAdvance(run[..last], j, k, bs);
      assert Advance(run, j)[..last] == Advance(run[..last], j);
    }
  }
}
