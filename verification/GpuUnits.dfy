/** Lists of GPUs cut into fully connected units: what taking from the front and removing whole
    groups from the middle keep. */
module GpuUnits {
  import opened Lists
  import opened Divisibility

  function Flat(chunks: seq<seq<nat>>): seq<nat> {
    if chunks == [] then [] else chunks[0] + Flat(chunks[1..])
  }

  ghost predicate InUnit(s: seq<nat>, u: nat, unit: nat)
    requires unit >= 1
  {
    forall g :: g in s ==> g / unit == u
  }

  /** All of s lies inside one fully connected unit. */
  ghost predicate OneUnit(s: seq<nat>, unit: nat)
    requires unit >= 1
  {
    forall g, h :: g in s && h in s ==> g / unit == h / unit
  }

  /** With one GPU of a unit, s has the whole unit. */
  ghost predicate WholeUnits(s: seq<nat>, unit: nat)
    requires unit >= 1
  {
    forall g: nat, h: nat :: g in s && h / unit == g / unit ==> h in s
  }

  /** Chunk k holds GPUs of unit us[k] only, no unit has two chunks, and every chunk can be dealt out
      in portions of m. */
  ghost predicate Dealt(chunks: seq<seq<nat>>, us: seq<nat>, unit: nat, m: nat)
    requires unit >= 1 && m >= 1
    decreases |chunks|
  {
    && |chunks| == |us|
    && (chunks == [] ||
        (&& Distinct(chunks[0]) && InUnit(chunks[0], us[0], unit) && Divides(m, |chunks[0]|)
         && us[0] !in us[1..] && Dealt(chunks[1..], us[1..], unit, m)))
  }

  lemma {:induction false} DealtFiner(chunks: seq<seq<nat>>, us: seq<nat>, unit: nat, m: nat, k: nat)
    requires unit >= 1 && m >= 1 && k >= 1 && Divides(k, m) && Dealt(chunks, us, unit, m)
    ensures Dealt(chunks, us, unit, k)
    decreases |chunks|
  {
    if chunks != [] {
      DividesTrans(k, m, |chunks[0]|);
      DealtFiner(chunks[1..], us[1..], unit, m, k);
    }
  }

  lemma {:induction false} FlatUnit(chunks: seq<seq<nat>>, us: seq<nat>, unit: nat, m: nat, g: nat)
    requires unit >= 1 && m >= 1 && Dealt(chunks, us, unit, m) && g in Flat(chunks)
    ensures g / unit in us
    decreases |chunks|
  {
    if g in chunks[0] {
      assert us[0] in us;
    } else {
      FlatUnit(chunks[1..], us[1..], unit, m, g);
    }
  }

  lemma {:induction false} ConcatDistinct(a: seq<nat>, b: seq<nat>)
    requires Distinct(a) && Distinct(b) && forall g :: g in a ==> g !in b
    ensures Distinct(a + b)
  {
    forall j, k | 0 <= j < k < |a + b| ensures (a + b)[j] != (a + b)[k] {
      if j < |a| <= k {
        assert a[j] in a && b[k - |a|] in b;
      }
    }
  }

  /** No GPU is listed twice. */
  lemma {:induction false} FlatDistinct(chunks: seq<seq<nat>>, us: seq<nat>, unit: nat, m: nat)
    requires unit >= 1 && m >= 1 && Dealt(chunks, us, unit, m)
    ensures Distinct(Flat(chunks))
    decreases |chunks|
  {
    if chunks != [] {
      var rest := Flat(chunks[1..]);
      FlatDistinct(chunks[1..], us[1..], unit, m);
      forall g | g in rest ensures g / unit != us[0] {
        FlatUnit(chunks[1..], us[1..], unit, m, g);
      }
      ConcatDistinct(chunks[0], rest);
    }
  }

  // ----- dealing portions from the front

  /** Portion j of size m lies inside one unit. */
  lemma {:induction false} PortionInOneUnit(chunks: seq<seq<nat>>, us: seq<nat>, unit: nat, m: nat, j: nat)
    requires unit >= 1 && m >= 1 && Dealt(chunks, us, unit, m)
    requires Divides(m, j) && j + m <= |Flat(chunks)|
    ensures OneUnit(Flat(chunks)[j..j + m], unit)
    decreases |chunks|
  {
    var c, rest := chunks[0], Flat(chunks[1..]);
    if j < |c| {
      MultiplesApart(m, j, |c|);
      var p := Flat(chunks)[j..j + m];
      assert p == c[j..j + m];
      forall g | g in p ensures g in c {
      }
    } else {
      DividesSum(m, j, |c|);
      PortionInOneUnit(chunks[1..], us[1..], unit, m, j - |c|);
      assert Flat(chunks)[j..j + m] == rest[j - |c|..j - |c| + m];
    }
  }

  function DropChunks(chunks: seq<seq<nat>>, n: nat): seq<seq<nat>>
    decreases |chunks|
  {
    if chunks == [] then []
    else if n <= |chunks[0]| then [chunks[0][n..]] + chunks[1..]
    else [[]] + DropChunks(chunks[1..], n - |chunks[0]|)
  }

  lemma {:induction false} DealtCons(c: seq<nat>, cs: seq<seq<nat>>, us: seq<nat>, unit: nat, m: nat)
    requires unit >= 1 && m >= 1 && us != []
    requires Distinct(c) && InUnit(c, us[0], unit) && Divides(m, |c|)
    requires us[0] !in us[1..] && Dealt(cs, us[1..], unit, m)
    ensures Dealt([c] + cs, us, unit, m) && Flat([c] + cs) == c + Flat(cs)
  {
    assert ([c] + cs)[1..] == cs;
  }

  /** Taking n from the front keeps the units apart, and the portions when n is a multiple. */
  lemma {:induction false} DropChunksFacts(chunks: seq<seq<nat>>, us: seq<nat>, unit: nat, m: nat, n: nat)
    requires unit >= 1 && m >= 1 && Dealt(chunks, us, unit, m)
    requires Divides(m, n) && n <= |Flat(chunks)|
    ensures Flat(DropChunks(chunks, n)) == Flat(chunks)[n..]
    ensures Dealt(DropChunks(chunks, n), us, unit, m)
    decreases |chunks|
  {
    if chunks != [] {
      var c, cs := chunks[0], chunks[1..];
      if n <= |c| {
        DividesSum(m, |c|, n);
        forall g | g in c[n..] ensures g in c {
        }
        DealtCons(c[n..], cs, us, unit, m);
        assert Flat(chunks)[n..] == c[n..] + Flat(cs);
      } else {
        DividesSum(m, n, |c|);
        DropChunksFacts(cs, us[1..], unit, m, n - |c|);
        DividesSum(m, |c|, |c|);
        DealtCons([], DropChunks(cs, n - |c|), us, unit, m);
        assert Flat(chunks)[n..] == Flat(cs)[n - |c|..];
      }
    }
  }

  // ----- removing a group from the middle

  function Without(s: seq<nat>, gone: seq<nat>): (r: seq<nat>)
    ensures |r| <= |s|
  {
    if s == [] then []
    else
      var rest := Without(s[1..], gone);
      if s[0] in gone then rest else [s[0]] + rest
  }

  function WithoutAll(chunks: seq<seq<nat>>, gone: seq<nat>): (r: seq<seq<nat>>)
    ensures |r| == |chunks|
  {
    if chunks == [] then [] else [Without(chunks[0], gone)] + WithoutAll(chunks[1..], gone)
  }

  lemma {:induction false} WithoutMember(s: seq<nat>, gone: seq<nat>, g: nat)
    ensures g in Without(s, gone) <==> g in s && g !in gone
  {
    if s != [] {
      WithoutMember(s[1..], gone, g);
      assert g in s <==> g == s[0] || g in s[1..];
    }
  }

  lemma {:induction false} WithoutKeeps(s: seq<nat>, gone: seq<nat>)
    requires Distinct(s)
    ensures Distinct(Without(s, gone))
  {
    if s != [] {
      WithoutKeeps(s[1..], gone);
      WithoutMember(s[1..], gone, s[0]);
    }
  }

  lemma {:induction false} WithoutFirst(x: nat, s: seq<nat>, gone: seq<nat>)
    ensures Without([x] + s, gone) == (if x in gone then [] else [x]) + Without(s, gone)
  {
    assert ([x] + s)[1..] == s;
  }

  lemma {:induction false} WithoutConcat(a: seq<nat>, b: seq<nat>, gone: seq<nat>)
    ensures Without(a + b, gone) == Without(a, gone) + Without(b, gone)
  {
    if a == [] {
      assert a + b == b;
    } else {
      WithoutConcat(a[1..], b, gone);
      WithoutFirst(a[0], a[1..], gone);
      WithoutFirst(a[0], a[1..] + b, gone);
      assert a == [a[0]] + a[1..];
      assert a + b == [a[0]] + (a[1..] + b);
    }
  }

  lemma {:induction false} WithoutFlat(chunks: seq<seq<nat>>, gone: seq<nat>)
    ensures Without(Flat(chunks), gone) == Flat(WithoutAll(chunks, gone))
    decreases |chunks|
  {
    if chunks != [] {
      WithoutFlat(chunks[1..], gone);
      WithoutConcat(chunks[0], Flat(chunks[1..]), gone);
      assert WithoutAll(chunks, gone)[1..] == WithoutAll(chunks[1..], gone);
    }
  }

  /** Removing first one part and then the other is removing both. */
  lemma {:induction false} WithoutTwice(s: seq<nat>, a: seq<nat>, b: seq<nat>)
    ensures Without(Without(s, a), b) == Without(s, a + b)
  {
    if s != [] {
      WithoutTwice(s[1..], a, b);
      var rest := Without(s[1..], a);
      assert ([s[0]] + rest)[1..] == rest;
      assert s[0] in a + b <==> s[0] in a || s[0] in b;
    }
  }

  lemma {:induction false} WithoutNothing(s: seq<nat>, gone: seq<nat>)
    requires forall g :: g in s ==> g !in gone
    ensures Without(s, gone) == s
  {
    if s != [] {
      WithoutNothing(s[1..], gone);
    }
  }

  lemma {:induction false} DropIsWithout(s: seq<nat>, n: nat)
    requires Distinct(s) && n <= |s|
    ensures s[n..] == Without(s, s[..n])
  {
    var a, b := s[..n], s[n..];
    assert s == a + b;
    WithoutConcat(a, b, a);
    forall g | g in b ensures g !in a {
    }
    WithoutNothing(b, a);
    WithoutEverything(a, a);
  }

  lemma {:induction false} WithoutEverything(s: seq<nat>, gone: seq<nat>)
    requires forall g :: g in s ==> g in gone
    ensures Without(s, gone) == []
  {
    if s != [] {
      WithoutEverything(s[1..], gone);
    }
  }

  lemma {:induction false} WithoutSame(s: seq<nat>, a: seq<nat>, b: seq<nat>)
    requires forall g :: g in a <==> g in b
    ensures Without(s, a) == Without(s, b)
  {
    if s != [] {
      WithoutSame(s[1..], a, b);
    }
  }

  lemma {:induction false} WithoutOne(s: seq<nat>, g: nat)
    requires Distinct(s) && g in s
    ensures |Without(s, [g])| == |s| - 1
  {
    if s[0] == g {
      WithoutNothing(s[1..], [g]);
    } else {
      WithoutOne(s[1..], g);
    }
  }

  /** Removing members shortens a list by their number. */
  lemma {:induction false} WithoutCounts(s: seq<nat>, gone: seq<nat>)
    requires Distinct(s) && Distinct(gone) && forall g :: g in gone ==> g in s
    ensures |Without(s, gone)| == |s| - |gone|
    decreases |gone|
  {
    if gone == [] {
      WithoutNothing(s, gone);
    } else {
      var g, rest := gone[0], gone[1..];
      WithoutCounts(s, rest);
      WithoutTwice(s, rest, [g]);
      WithoutSame(s, rest + [g], gone);
      WithoutMember(s, rest, g);
      WithoutKeeps(s, rest);
      WithoutOne(Without(s, rest), g);
    }
  }

  lemma {:induction false} ChunkWithout(c: seq<nat>, u: nat, unit: nat, m: nat, gone: seq<nat>)
    requires unit >= 1 && m >= 1 && Distinct(c) && InUnit(c, u, unit) && Divides(m, |c|)
    requires Distinct(gone)
             && ((|gone| == m && forall g :: g in gone ==> g in c) || (forall g :: g in c ==> g !in gone))
    ensures var w := Without(c, gone); Distinct(w) && InUnit(w, u, unit) && Divides(m, |w|)
  {
    WithoutKeeps(c, gone);
    forall g | g in Without(c, gone) ensures g / unit == u {
      WithoutMember(c, gone, g);
    }
    if forall g :: g in c ==> g !in gone {
      WithoutNothing(c, gone);
    } else {
      WithoutCounts(c, gone);
      MultipleDivides(1, m);
      DividesSum(m, |c|, m);
    }
  }

  /** Removing a group of m GPUs of one unit keeps the portions. */
  lemma {:induction false} RemoveGroup(chunks: seq<seq<nat>>, us: seq<nat>, unit: nat, m: nat, gone: seq<nat>)
    requires unit >= 1 && m >= 1 && Dealt(chunks, us, unit, m)
    requires Distinct(gone) && |gone| == m && OneUnit(gone, unit)
    requires (forall g :: g in gone ==> g in Flat(chunks)) || (forall g :: g in gone ==> g !in Flat(chunks))
    ensures Dealt(WithoutAll(chunks, gone), us, unit, m)
    decreases |chunks|
  {
    if chunks != [] {
      var c, cs := chunks[0], chunks[1..];
      GroupSplit(chunks, us, unit, m, gone);
      RemoveGroup(cs, us[1..], unit, m, gone);
      ChunkWithout(c, us[0], unit, m, gone);
      DealtCons(Without(c, gone), WithoutAll(cs, gone), us, unit, m);
    }
  }

  /** A group of one unit is in the first chunk or in none of it. */
  lemma {:induction false} GroupSplit(chunks: seq<seq<nat>>, us: seq<nat>, unit: nat, m: nat, gone: seq<nat>)
    requires unit >= 1 && m >= 1 && Dealt(chunks, us, unit, m) && chunks != [] && OneUnit(gone, unit) && gone != []
    requires (forall g :: g in gone ==> g in Flat(chunks)) || (forall g :: g in gone ==> g !in Flat(chunks))
    ensures (forall g :: g in gone ==> g in chunks[0]) || (forall g :: g in chunks[0] ==> g !in gone)
    ensures (forall g :: g in gone ==> g in Flat(chunks[1..])) || (forall g :: g in gone ==> g !in Flat(chunks[1..]))
  {
    var c, rest, u := chunks[0], Flat(chunks[1..]), gone[0] / unit;
    assert gone[0] in gone;
    assert InUnit(gone, u, unit);
    forall g | g in rest ensures g / unit != us[0] {
      FlatUnit(chunks[1..], us[1..], unit, m, g);
    }
    UnitSplit(c, rest, gone, u, us[0], unit);
  }

  lemma {:induction false} UnitSplit(c: seq<nat>, rest: seq<nat>, gone: seq<nat>, u: nat, v: nat, unit: nat)
    requires unit >= 1 && InUnit(gone, u, unit) && InUnit(c, v, unit) && forall g :: g in rest ==> g / unit != v
    requires (forall g :: g in gone ==> g in c + rest) || (forall g :: g in gone ==> g !in c + rest)
    ensures (forall g :: g in gone ==> g in c) || (forall g :: g in c ==> g !in gone)
    ensures (forall g :: g in gone ==> g in rest) || (forall g :: g in gone ==> g !in rest)
  {
    if u == v {
      assert forall g :: g in gone ==> g !in rest;
    } else {
      assert forall g :: g in gone ==> g !in c;
    }
  }
}
