/** The counting argument behind both reuse envelopes and the consumers' overshoot bound. */
module Pigeonhole {

  /** `owners[lo..]` names each thread at most once. */
  ghost predicate DistinctFrom(owners: seq<nat>, lo: int) {
    forall i, j :: 0 <= i < j < |owners| && lo <= i ==> owners[i] != owners[j]
  }

  ghost predicate Below(owners: seq<nat>, threads: nat) {
    forall i :: 0 <= i < |owners| ==> owners[i] < threads
  }

  /** If every thread owns at most one of the tickets from lo on, there are at most as many of
      those tickets as threads. */
  lemma {:induction false} AtMostOneEach(owners: seq<nat>, lo: nat, threads: nat)
    requires lo <= |owners| && Below(owners, threads) && DistinctFrom(owners, lo)
    ensures |owners| <= lo + threads
  {
    var seen := set i | lo <= i < |owners| :: owners[i];
    CountSeen(owners, lo, |owners|, seen);
    CountBelow(seen, threads);
  }

  lemma {:induction false} CountSeen(owners: seq<nat>, lo: nat, hi: nat, seen: set<nat>)
    requires lo <= hi <= |owners| && DistinctFrom(owners, lo)
    requires seen == set i | lo <= i < hi :: owners[i]
    ensures |seen| == hi - lo
    decreases hi
  {
    if hi > lo {
      var rest := set i | lo <= i < hi - 1 :: owners[i];
      CountSeen(owners, lo, hi - 1, rest);
      assert owners[hi - 1] !in rest;
      assert seen == rest + {owners[hi - 1]};
    } else {
      assert seen == {};
    }
  }

  /** A set of naturals below n has at most n elements. */
  lemma {:induction false} CountBelow(s: set<nat>, n: nat)
    requires forall x :: x in s ==> x < n
    ensures |s| <= n
    decreases n
  {
    if n == 0 {
      assert s == {};
    } else {
      CountBelow(s - {n - 1}, n - 1);
    }
  }
}
