/** The clock of a restarted schedule: what its readings add up, and when a request finishes by it. */
module RestartClock {
  import opened Clock
  import opened RestartPlan

  /** The reading before the one at j. */
  function Before(time: real, c: seq<real>, j: nat): real
    requires j <= |c|
  {
    if j == 0 then time else c[j - 1]
  }

  /** How long each iteration takes by the given clock readings. */
  function StepLengths(cum: seq<real>): (l: seq<real>)
    ensures |l| == |cum|
  {
    seq(|cum|, t requires 0 <= t < |cum| => cum[t] - Before(0.0, cum, t))
  }

  /** Readings that go up by the given lengths are their running sum. */
  lemma {:induction false} SumUnique(time: real, lats: seq<real>, c: seq<real>)
    requires |c| == |lats|
    requires forall j: nat :: j < |c| ==> c[j] == Before(time, c, j) + lats[j]
    ensures c == CumFrom(time, lats)
    decreases |lats|
  {
    if lats != [] {
      var n := |lats| - 1;
      forall j: nat | j < n ensures c[..n][j] == Before(time, c[..n], j) + lats[..n][j] {
        assert c[j] == Before(time, c, j) + lats[j];
      }
      SumUnique(time, lats[..n], c[..n]);
      assert c[n] == Before(time, c, n) + lats[n];
    }
  }

  /** Every clock is the running sum of its own step lengths, and of nothing else. */
  lemma {:induction false} ClockOfLengths(cum: seq<real>, l: seq<real>)
    requires |l| == |cum|
    ensures cum == CumFrom(0.0, l) <==> l == StepLengths(cum)
  {
    if l == StepLengths(cum) {
      SumUnique(0.0, l, cum);
    }
    if cum == CumFrom(0.0, l) {
      forall j: nat | j < |l| ensures l[j] == StepLengths(cum)[j] {
        CumFromAt(0.0, l, j);
      }
    }
  }

  /** Clock readings after the restart, before anything is deleted. */
  function RestartedClock(prefill: seq<real>, cum: seq<real>, stop: int): (c: seq<real>)
    requires 0 <= stop < |cum|
    ensures |c| == |prefill| + |cum| - (stop + 1)
  {
    prefill + seq(|cum| - (stop + 1), t requires 0 <= t < |cum| - (stop + 1) =>
      LastOr(prefill, 0.0) + (cum[stop + 1 + t] - cum[stop]))
  }

  /** The restarted clock adds up the recovery prefills and then the old iterations after the stop. */
  lemma {:induction false} RestartedClockAdds(lats: seq<real>, cum: seq<real>, stop: int)
    requires 0 <= stop < |cum|
    ensures RestartedClock(CumFrom(0.0, lats), cum, stop) == CumFrom(0.0, lats + StepLengths(cum)[stop + 1..])
  {
    var front := CumFrom(0.0, lats);
    var c, all := RestartedClock(front, cum, stop), lats + StepLengths(cum)[stop + 1..];
    forall j: nat | j < |c| ensures c[j] == Before(0.0, c, j) + all[j] {
      if j < |lats| {
        CumFromAt(0.0, lats, j);
        assert c[j] == front[j] && Before(0.0, c, j) == Before(0.0, front, j);
      } else {
        var s := stop + 1 + j - |lats|;
        assert all[j] == StepLengths(cum)[s] == cum[s] - cum[s - 1];
        assert Before(0.0, c, j) == LastOr(front, 0.0) + (cum[s - 1] - cum[stop]);
      }
    }
    SumUnique(0.0, all, c);
  }

  ghost predicate NonDecreasing(c: seq<real>) {
    forall s, t :: 0 <= s <= t < |c| ==> c[s] <= c[t]
  }

  lemma {:induction false} CumNonDecreasing(time: real, lats: seq<real>)
    requires forall i :: 0 <= i < |lats| ==> lats[i] >= 0.0
    ensures NonDecreasing(CumFrom(time, lats))
    decreases |lats|
  {
    if lats != [] {
      CumNonDecreasing(time, lats[..|lats| - 1]);
      CumFromAt(time, lats, |lats| - 1);
    }
  }

  lemma {:induction false} DeletedNonDecreasing(c: seq<real>, plan: seq<seq<Rng>>, fs: seq<int>, skip: nat)
    requires NonDecreasing(c) && forall k :: 0 <= k < |fs| ==> fs[k] >= 0
    ensures NonDecreasing(DeleteEntries(c, plan, fs, skip))
  {
    if fs != [] {
      DeletedNonDecreasing(c, plan, fs[..|fs| - 1], skip);
    }
  }

  lemma {:induction false} DeletedLengths<S, T>(a: seq<S>, b: seq<T>, plan: seq<seq<Rng>>, fs: seq<int>, skip: nat)
    requires |a| == |b| && forall k :: 0 <= k < |fs| ==> fs[k] >= 0
    ensures |DeleteEntries(a, plan, fs, skip)| == |DeleteEntries(b, plan, fs, skip)|
  {
    if fs != [] {
      DeletedLengths(a, b, plan, fs[..|fs| - 1], skip);
    }
  }

  /** The rebuilt clock is as long as the rebuilt flags and does not go back. */
  lemma {:induction false} RestartedClockFacts(
      front: seq<bool>, steps: seq<bool>, lats: seq<real>, cum: seq<real>, stop: int, t: seq<seq<Rng>>, fs: seq<int>)
    requires 0 <= stop < |cum| == |steps| && |front| == |lats| && forall k :: 0 <= k < |fs| ==> fs[k] >= 0
    ensures var c := DeleteEntries(RestartedClock(CumFrom(0.0, lats), cum, stop), t, fs, |front|);
            && |c| == |DeleteEntries(front + steps[stop + 1..], t, fs, |front|)|
            && ((forall i :: 0 <= i < |lats| ==> lats[i] >= 0.0) && NonDecreasing(cum) ==> NonDecreasing(c))
  {
    var c1 := RestartedClock(CumFrom(0.0, lats), cum, stop);
    DeletedLengths(front + steps[stop + 1..], c1, t, fs, |front|);
    if (forall i :: 0 <= i < |lats| ==> lats[i] >= 0.0) && NonDecreasing(cum) {
      CumNonDecreasing(0.0, lats);
      forall s, u | 0 <= s <= u < |c1| ensures c1[s] <= c1[u] {
        if s < |lats| <= u {
          assert c1[s] <= c1[|lats| - 1] == LastOr(CumFrom(0.0, lats), 0.0);
        }
      }
      DeletedNonDecreasing(c1, t, fs, |front|);
    }
  }
}
