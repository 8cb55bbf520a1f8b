/** What the clock-recovery loop achieves: the outlier gate cannot hold it off for long, in either mode; and in
    offset-only mode its error contracts at a known rate from any reachable state. */
module ClockRecoveryTheorems {
  import opened Int32
  import opened ClockRecovery

  datatype Event = Observe(consumer: real, producer: real) | Reset

  /** The loop after a history of calls. */
  function After(t: Tuning, events: seq<Event>): Loop
    requires t.Valid()
  {
    if events == [] then FRESH else
      var s := After(t, events[..|events| - 1]);
      match events[|events| - 1]
      case Observe(consumer, producer) => Observed(t, s, consumer, producer)
      case Reset => Cleared(s)
  }

  /** What one call of `observe` is given. */
  datatype Reading = Reading(consumer: real, producer: real) {
    function Offset(): real { producer - consumer }
  }

  /** How far a reading is from what the loop expects. */
  function Residual(t: Tuning, s: Loop, r: Reading): real {
    r.Offset() - Expected(t, s, r.consumer)
  }

  function Fed(t: Tuning, s: Loop, rs: seq<Reading>): Loop
    requires t.Valid()
  {
    if rs == [] then s else
      var r := rs[|rs| - 1];
      Observed(t, Fed(t, s, rs[..|rs| - 1]), r.consumer, r.producer)
  }

  predicate Rejects(t: Tuning, s: Loop, r: Reading) {
    TurnedAway(t, s, Residual(t, s, r))
  }

  /** How many of the readings the gate let through. */
  function Admitted(t: Tuning, s: Loop, rs: seq<Reading>): nat
    requires t.Valid()
  {
    if rs == [] then 0 else
      var before := rs[..|rs| - 1];
      Admitted(t, s, before) + if Rejects(t, Fed(t, s, before), rs[|rs| - 1]) then 0 else 1
  }

  /** Readings of a producer clock that runs exactly c ahead, at any consumer times. */
  predicate Steady(rs: seq<Reading>, c: real) {
    forall i :: 0 <= i < |rs| ==> rs[i].Offset() == c
  }

  // Contraction

  function Energy(e: real, j: real): real {
    e * e - 0.4 * (e * j) + j * j
  }

  /** Weighted squared error of the loop: the offset error and a tenth of the integral. */
  function Distance(s: Loop, c: real): real {
    Energy(s.offset - c, s.integral / 10.0)
  }

  lemma SquareNonNegative(x: real)
    ensures x * x >= 0.0
  {
  }

  lemma Contracts(e: real, j: real)
    ensures Energy(0.79 * e + 0.1 * j, j - 0.1 * e) <= 0.98 * Energy(e, j)
  {
    assert 0.98 * Energy(e, j) - Energy(0.79 * e + 0.1 * j, j - 0.1 * e)
        == 0.3143 * (e * e) - 0.038 * (e * j) + 0.01 * (j * j);
    assert 0.3143 * (e * e) - 0.038 * (e * j) + 0.01 * (j * j)
        == 0.2782 * (e * e) + (0.19 * e - 0.1 * j) * (0.19 * e - 0.1 * j);
    SquareNonNegative(e);
    SquareNonNegative(0.19 * e - 0.1 * j);
  }

  /** The integral part alone is at most the square root of Energy / 0.96. */
  lemma IntegralWithin(e: real, j: real)
    ensures 0.96 * (j * j) <= Energy(e, j) && 0.96 * (e * e) <= Energy(e, j)
  {
    assert Energy(e, j) - 0.96 * (j * j) == (e - 0.2 * j) * (e - 0.2 * j);
    assert Energy(e, j) - 0.96 * (e * e) == (j - 0.2 * e) * (j - 0.2 * e);
    SquareNonNegative(e - 0.2 * j);
    SquareNonNegative(j - 0.2 * e);
  }

  const TAME := 9600000000.0

  lemma SquareGrows(x: real, y: real)
    requires 0.0 <= x
    ensures x < y ==> x * x < y * y
  {
    if x < y {
      ProductPositive(y - x, y + x);
      assert (y - x) * (y + x) == y * y - x * x;
    }
  }

  lemma ProductPositive(x: real, y: real)
    requires x > 0.0 && y > 0.0
    ensures x * y > 0.0
  {
  }

  lemma SquareBelow(j: real)
    requires j * j <= 10000000000.0
    ensures -100000.0 <= j <= 100000.0
  {
    SquareGrows(100000.0, j);
    SquareGrows(100000.0, -j);
  }

  /** The integral is within the anti-windup limit. */
  predicate Wound(s: Loop) {
    -INT_LIMIT <= s.integral <= INT_LIMIT
  }

  /** The new error as a function of the old one and of the new integral. */
  function Pulled(e: real, k: real): real {
    0.64 * (e * e) - 0.16 * (e * k) + 0.97 * (k * k)
  }

  lemma PulledIsEnergy(e: real, k: real)
    ensures Energy(0.8 * e + 0.1 * k, k) == Pulled(e, k)
  {
    assert (0.8 * e + 0.1 * k) * (0.8 * e + 0.1 * k) == 0.64 * (e * e) + 0.16 * (e * k) + 0.01 * (k * k);
    assert (0.8 * e + 0.1 * k) * k == 0.8 * (e * k) + 0.1 * (k * k);
  }

  lemma ProductNonNegative(x: real, y: real)
    requires x >= 0.0 && y >= 0.0
    ensures x * y >= 0.0
  {
  }

  /** Cutting the integral back towards zero, on the far side from the error, only helps. */
  lemma CutHelps(e: real, k: real, u: real)
    requires (0.0 <= k <= u && e <= 0.0) || (u <= k <= 0.0 && 0.0 <= e)
    ensures Pulled(e, k) <= Pulled(e, u)
  {
    assert Pulled(e, u) - Pulled(e, k) == (u - k) * (0.97 * (u + k) - 0.16 * e);
    if k == u {
    } else if k < u {
      ProductNonNegative(u - k, 0.97 * (u + k) - 0.16 * e);
    } else {
      ProductNonNegative(k - u, 0.16 * e - 0.97 * (u + k));
      assert (k - u) * (0.16 * e - 0.97 * (u + k)) == (u - k) * (0.97 * (u + k) - 0.16 * e);
    }
  }

  /** The clamp never makes the error larger: it acts only where the integral is already within its limit and the
      error drives it out. */
  lemma ClampHelps(e: real, integral: real)
    requires -INT_LIMIT <= integral <= INT_LIMIT
    ensures Pulled(e, Clamped(integral - e) / 10.0) <= Pulled(e, (integral - e) / 10.0)
  {
    if Clamped(integral - e) != integral - e {
      CutHelps(e, Clamped(integral - e) / 10.0, (integral - e) / 10.0);
    }
  }

  /** What one admitted reading does to the two controlled fields. */
  lemma Admits(t: Tuning, s: Loop, r: Reading, c: real)
    requires t.Valid() && !t.drift && s.locked && r.Offset() == c && !Rejects(t, s, r)
    ensures var s', e := Observed(t, s, r.consumer, r.producer), s.offset - c;
      && s'.locked && s'.integral == Clamped(s.integral - e)
      && s'.offset - c == 0.8 * e + 0.1 * (s'.integral / 10.0)
  {
  }

  /** A reading that is let through brings the loop nearer, whatever the distance and whether or not the anti-windup
      clamp fires. */
  lemma AdmittedContracts(t: Tuning, s: Loop, r: Reading, c: real)
    requires t.Valid() && !t.drift && s.locked && Wound(s) && r.Offset() == c && !Rejects(t, s, r)
    ensures Distance(Observed(t, s, r.consumer, r.producer), c) <= 0.98 * Distance(s, c)
  {
    var e, j := s.offset - c, s.integral / 10.0;
    var k, u := Clamped(s.integral - e) / 10.0, j - 0.1 * e;
    Admits(t, s, r, c);
    PulledIsEnergy(e, k);
    PulledIsEnergy(e, u);
    ClampHelps(e, s.integral);
    assert (s.integral - e) / 10.0 == u;
    Contracts(e, j);
    assert 0.8 * e + 0.1 * u == 0.79 * e + 0.1 * j;
  }

  /** Near enough, the clamp does not fire. */
  lemma ClampIdle(t: Tuning, s: Loop, r: Reading, c: real)
    requires t.Valid() && !t.drift && s.locked && r.Offset() == c && !Rejects(t, s, r) && Distance(s, c) <= TAME
    ensures Observed(t, s, r.consumer, r.producer).integral == s.integral + (c - s.offset)
  {
    var e, j := s.offset - c, s.integral / 10.0;
    Admits(t, s, r, c);
    Contracts(e, j);
    IntegralWithin(0.79 * e + 0.1 * j, j - 0.1 * e);
    SquareBelow(j - 0.1 * e);
  }

  /** One that is turned away changes only two counters. */
  lemma RejectedKeeps(t: Tuning, s: Loop, r: Reading)
    requires t.Valid() && s.locked && Rejects(t, s, r)
    ensures Observed(t, s, r.consumer, r.producer) == CountedAway(s)
  {
  }

  // The gate cannot hold the loop off

  /** What every reachable state keeps: the integral is within its limit; a streak means that the gate is on, and
      it never exceeds a limit that the 32-bit counter can reach. */
  predicate Fair(t: Tuning, s: Loop) {
    && Wound(s)
    && -TWO_31 <= s.streak < TWO_31
    && (s.streak != 0 ==> s.locked && GateActive(t, s))
    && (Escapes(t) ==> 0 <= s.streak && s.streak as real <= t.limit.value)
  }

  /** The limit is one that the counter can exceed. */
  predicate Escapes(t: Tuning) {
    t.limit.Below((TWO_31 - 1) as real)
  }

  lemma FairStep(t: Tuning, s: Loop, consumer: real, producer: real)
    requires t.Valid() && Fair(t, s)
    ensures Fair(t, Observed(t, s, consumer, producer))
  {
  }

  lemma {:induction false} AlwaysFair(t: Tuning, events: seq<Event>)
    requires t.Valid()
    ensures Fair(t, After(t, events))
    decreases |events|
  {
    if events != [] {
      var before := events[..|events| - 1];
      AlwaysFair(t, before);
      match events[|events| - 1]
      case Observe(consumer, producer) => FairStep(t, After(t, before), consumer, producer);
      case Reset =>
    }
  }

  lemma StreakStep(t: Tuning, s: Loop, r: Reading)
    requires t.Valid() && s.locked && Fair(t, s) && Escapes(t)
    ensures Observed(t, s, r.consumer, r.producer).streak == if Rejects(t, s, r) then s.streak + 1 else 0
  {
  }

  lemma {:induction false} StaysLocked(t: Tuning, s: Loop, rs: seq<Reading>)
    requires t.Valid() && s.locked && Fair(t, s)
    ensures Fed(t, s, rs).locked && Fair(t, Fed(t, s, rs))
    decreases |rs|
  {
    if rs != [] {
      var before, r := rs[..|rs| - 1], rs[|rs| - 1];
      StaysLocked(t, s, before);
      FairStep(t, Fed(t, s, before), r.consumer, r.producer);
    }
  }

  /** The most observations that n admissions can account for, with a streak of at most l after each. */
  function Span(l: int, n: int): int {
    (l + 1) * n
  }

  lemma SpanNext(l: int, n: int)
    ensures Span(l, n + 1) == Span(l, n) + l + 1 && Span(l, 0) == 0
  {
  }

  lemma StreakFloor(t: Tuning, s: Loop)
    requires t.limit.Finite? && Fair(t, s) && Escapes(t)
    ensures 0 <= s.streak <= t.limit.value.Floor
  {
  }

  /** In either mode and for any readings whatever: every limit + 1 of them in a row hold at least one that is let
      through. */
  lemma {:induction false} AdmissionsLag(t: Tuning, s: Loop, rs: seq<Reading>)
    requires t.Valid() && s.locked && Fair(t, s) && Escapes(t)
    ensures |rs| <= Span(t.limit.value.Floor, Admitted(t, s, rs)) + Fed(t, s, rs).streak
    ensures 0 <= Fed(t, s, rs).streak <= t.limit.value.Floor
    decreases |rs|
  {
    StaysLocked(t, s, rs);
    StreakFloor(t, Fed(t, s, rs));
    if rs == [] {
      SpanNext(t.limit.value.Floor, 0);
    } else {
      var before := rs[..|rs| - 1];
      StaysLocked(t, s, before);
      AdmissionsLag(t, s, before);
      StreakStep(t, Fed(t, s, before), rs[|rs| - 1]);
      SpanNext(t.limit.value.Floor, Admitted(t, s, before));
    }
  }

  lemma TimesGrows(k: nat, x: int, y: int)
    ensures x <= y ==> k * x <= k * y
  {
  }

  /** The admissions that n observations are sure to hold: floor(n / (limit + 1)). */
  function Owed(l: nat, n: nat): nat {
    n / (l + 1)
  }

  lemma OwedAtMost(l: nat, n: nat, a: nat)
    requires n <= Span(l, a) + l
    ensures Owed(l, n) <= a
  {
    TimesGrows(l + 1, a + 1, n / (l + 1));
  }

  function Power(x: real, n: nat): real {
    if n == 0 then 1.0 else x * Power(x, n - 1)
  }

  lemma {:induction false} PowerFalls(m: nat, n: nat)
    requires m <= n
    ensures 0.0 < Power(0.98, n) <= Power(0.98, m) <= 1.0
    decreases n
  {
    if m < n {
      PowerFalls(m, n - 1);
    } else if n > 0 {
      PowerFalls(n - 1, n - 1);
    }
  }

  /** A distance d after n shrinkings by 2 %. */
  function Shrunk(n: nat, d: real): real {
    Power(0.98, n) * d
  }

  lemma ShrunkNext(n: nat, d: real)
    ensures Shrunk(0, d) == d && Shrunk(n + 1, d) == 0.98 * Shrunk(n, d)
  {
    var p := Power(0.98, n);
    assert Power(0.98, n + 1) == 0.98 * p;
    Regroup(0.98, p, d);
  }

  lemma ShrunkFalls(m: nat, n: nat, d: real)
    requires m <= n && 0.0 <= d
    ensures Shrunk(n, d) <= Shrunk(m, d) <= d && Shrunk(0, d) == d
    ensures Shrunk(n + 1, d) == 0.98 * Shrunk(n, d)
  {
    PowerFalls(m, n);
    Scaled(Power(0.98, n), Power(0.98, m), d);
    Scaled(Power(0.98, m), 1.0, d);
    ShrunkNext(n, d);
  }

  lemma Regroup(x: real, y: real, z: real)
    ensures x * y * z == x * (y * z)
  {
  }

  lemma Scaled(p: real, p': real, d: real)
    requires p <= p' && 0.0 <= d
    ensures p * d <= p' * d
  {
  }

  lemma DistanceNonNegative(s: Loop, c: real)
    ensures Distance(s, c) >= 0.0
  {
    IntegralWithin(s.offset - c, s.integral / 10.0);
    SquareNonNegative(s.integral / 10.0);
  }

  lemma OneReading(t: Tuning, s: Loop, r: Reading, c: real)
    requires t.Valid() && !t.drift && s.locked && Wound(s) && r.Offset() == c
    ensures Distance(Observed(t, s, r.consumer, r.producer), c)
         <= if Rejects(t, s, r) then Distance(s, c) else 0.98 * Distance(s, c)
  {
    if Rejects(t, s, r) {
      RejectedKeeps(t, s, r);
    } else {
      AdmittedContracts(t, s, r, c);
    }
  }

  /** The distance falls by at least 2 % with each reading that is let through. */
  lemma {:induction false} FallsWithAdmissions(t: Tuning, s: Loop, rs: seq<Reading>, c: real)
    requires t.Valid() && !t.drift && s.locked && Fair(t, s) && Steady(rs, c)
    ensures Distance(Fed(t, s, rs), c) <= Shrunk(Admitted(t, s, rs), Distance(s, c))
    decreases |rs|
  {
    DistanceNonNegative(s, c);
    if rs == [] {
      ShrunkNext(0, Distance(s, c));
    } else {
      var before := rs[..|rs| - 1];
      FallsWithAdmissions(t, s, before, c);
      StaysLocked(t, s, before);
      var mid, r := Fed(t, s, before), rs[|rs| - 1];
      OneReading(t, mid, r, c);
      var next := Fed(t, s, rs);
      assert next == Observed(t, mid, r.consumer, r.producer);
      FallOnce(Distance(s, c), Distance(mid, c), Distance(next, c), Admitted(t, s, before), Rejects(t, mid, r));
    }
  }

  lemma FallOnce(d: real, mid: real, next: real, n: nat, kept: bool)
    requires mid <= Shrunk(n, d) && next <= if kept then mid else 0.98 * mid
    ensures next <= Shrunk(if kept then n else n + 1, d)
  {
    ShrunkNext(n, d);
  }

  /** From any reachable state, however far off, n readings of a clock with a constant offset bring the loop nearer by
      the factor 0.98 ^ floor(n / (limit + 1)), whatever the gate turned away and the clamp cut off on the way. */
  lemma {:induction false} Converges(t: Tuning, events: seq<Event>, rs: seq<Reading>, c: real)
    requires t.Valid() && !t.drift && Escapes(t) && After(t, events).locked && Steady(rs, c)
    ensures Distance(Fed(t, After(t, events), rs), c)
         <= Shrunk(Owed(t.limit.value.Floor, |rs|), Distance(After(t, events), c))
  {
    AlwaysFair(t, events);
    ConvergesFrom(t, After(t, events), rs, c);
  }

  lemma {:induction false} ConvergesFrom(t: Tuning, s: Loop, rs: seq<Reading>, c: real)
    requires t.Valid() && !t.drift && Escapes(t) && s.locked && Fair(t, s) && Steady(rs, c)
    ensures Distance(Fed(t, s, rs), c) <= Shrunk(Owed(t.limit.value.Floor, |rs|), Distance(s, c))
  {
    var l, a := t.limit.value.Floor, Admitted(t, s, rs);
    AdmissionsLag(t, s, rs);
    OwedAtMost(l, |rs|, a);
    FallsWithAdmissions(t, s, rs, c);
    DistanceNonNegative(s, c);
    ShrunkFalls(Owed(l, |rs|), a, Distance(s, c));
  }

  /** What the distance says about `phaseLockedTime`: its squared error is within distance / 0.96. */
  lemma PhaseError(t: Tuning, s: Loop, c: real, consumer: real)
    requires !t.drift && s.locked
    ensures var error := PhaseLocked(t, s, consumer) - (consumer + c);
      0.96 * (error * error) <= Distance(s, c)
  {
    IntegralWithin(s.offset - c, s.integral / 10.0);
  }

  // The step escape, exactly

  /** Each of the readings is an outlier for the loop as it stands. */
  predicate AllOutliers(t: Tuning, s: Loop, rs: seq<Reading>) {
    forall i :: 0 <= i < |rs| ==> IsOutlier(t, s, Residual(t, s, rs[i]))
  }

  lemma {:induction false} NeverEscapes(t: Tuning, s: Loop, rs: seq<Reading>)
    requires t.Valid() && s.locked && Fair(t, s) && !Escapes(t) && AllOutliers(t, s, rs)
    ensures Admitted(t, s, rs) == 0 && Fair(t, Fed(t, s, rs))
    ensures var s' := Fed(t, s, rs); s' == s.(streak := s'.streak, rejected := s'.rejected)
    decreases |rs|
  {
    if rs != [] {
      var before, r := rs[..|rs| - 1], rs[|rs| - 1];
      NeverEscapes(t, s, before);
      var mid := Fed(t, s, before);
      assert IsOutlier(t, s, Residual(t, s, r));
      assert Rejects(t, mid, r);
      RejectedKeeps(t, mid, r);
      FairStep(t, mid, r.consumer, r.producer);
    }
  }

  /** In either mode, a producer clock that has stepped beyond the gate, and of whose readings there are more than the
      limit, is admitted again if and only if the limit is one that the 32-bit streak counter can exceed: finite and
      below 2^31 - 1. */
  lemma {:induction false} EscapeExact(t: Tuning, events: seq<Event>, rs: seq<Reading>)
    requires t.Valid() && After(t, events).locked && AllOutliers(t, After(t, events), rs)
    requires t.limit.Finite? ==> |rs| > t.limit.value.Floor
    ensures Admitted(t, After(t, events), rs) > 0 <==> Escapes(t)
  {
    var s := After(t, events);
    AlwaysFair(t, events);
    if Escapes(t) {
      AdmissionsLag(t, s, rs);
      SpanNext(t.limit.value.Floor, 0);
    } else {
      NeverEscapes(t, s, rs);
    }
  }
}
