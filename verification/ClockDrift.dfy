/** The drift branch of the clock-recovery loop, fed by a producer clock that runs at a constant rate and is observed at
    even spacing. For exactly which gains it locks, and how fast. */
module ClockDrift {
  import opened ClockRecovery
  import opened ClockRecoveryTheorems

  /** A clock whose offset at consumer time x is start + rate * x. */
  datatype Line = Line(start: real, rate: real) {
    function At(x: real): real { start + Times(rate, x) }
  }

  function Times(x: real, y: real): real { x * y }

  predicate OnLine(rs: seq<Reading>, line: Line) {
    forall i :: 0 <= i < |rs| ==> rs[i].Offset() == line.At(rs[i].consumer)
  }

  /** The consumer time before reading i. */
  function TimeBefore(from: real, rs: seq<Reading>, i: nat): real
    requires i <= |rs|
  {
    if i == 0 then from else rs[i - 1].consumer
  }

  /** Readings at spacing h, the first of them h after `from`. */
  predicate Even(from: real, rs: seq<Reading>, h: real) {
    forall i :: 0 <= i < |rs| ==> rs[i].consumer == TimeBefore(from, rs, i) + h
  }

  predicate AllAdmitted(t: Tuning, s: Loop, rs: seq<Reading>)
    requires t.Valid()
  {
    Admitted(t, s, rs) == |rs|
  }

  /** The error of the loop's offset at its last admitted reading. */
  function Error(s: Loop, line: Line): real {
    s.offset - line.At(s.lastConsumer)
  }

  /** The error that it is heading for, h later. */
  function Ahead(s: Loop, line: Line, h: real): real {
    Error(s, line) + Times(s.driftRate - line.rate, h)
  }

  lemma LineAt(line: Line, x: real, h: real)
    ensures line.At(x + h) == line.At(x) + Times(line.rate, h)
  {
  }

  lemma TimesLinear(x: real, y: real, h: real)
    ensures Times(x - y, h) == Times(x, h) - Times(y, h)
  {
  }

  /** By how much `phaseLockedTime` is off, h after the last admitted reading. */
  function PhaseErrorAfter(t: Tuning, s: Loop, line: Line, h: real): real {
    var x := s.lastConsumer + h;
    PhaseLocked(t, s, x) - (x + line.At(x))
  }

  function SquaredError(t: Tuning, s: Loop, line: Line, h: real): real {
    Times(PhaseErrorAfter(t, s, line, h), PhaseErrorAfter(t, s, line, h))
  }

  lemma AheadIsPhaseError(t: Tuning, s: Loop, line: Line, h: real)
    requires t.drift && s.locked
    ensures PhaseErrorAfter(t, s, line, h) == Ahead(s, line, h)
  {
    LineAt(line, s.lastConsumer, h);
    TimesLinear(s.driftRate, line.rate, h);
    assert Extrapolated(s.offset, s.driftRate, h) == s.offset + Times(s.driftRate, h);
  }

  lemma TurnedTimes(rate: real, gain: real, h: real, residual: real)
    requires h != 0.0
    ensures Times(Turned(rate, gain, h, residual), h) == Times(rate, h) + Times(gain, residual)
  {
    assert gain / h * residual * h == gain * residual;
  }

  lemma TimesNegated(x: real, y: real)
    ensures Times(x, -y) == -Times(x, y)
  {
  }

  /** One admitted reading, in terms of the two errors. */
  lemma DriftStep(t: Tuning, s: Loop, r: Reading, line: Line, h: real)
    requires t.Valid() && t.drift && s.locked && h > 0.0 && !Rejects(t, s, r)
    requires r.consumer == s.lastConsumer + h && r.Offset() == line.At(r.consumer)
    ensures var s', x := Observed(t, s, r.consumer, r.producer), Ahead(s, line, h);
      && s'.locked && s'.lastConsumer == r.consumer
      && Error(s', line) == 0.8 * x && Ahead(s', line, h) == 1.8 * x - Times(t.driftGain, x) - Error(s, line)
  {
    var s', x := Observed(t, s, r.consumer, r.producer), Ahead(s, line, h);
    AheadIsPhaseError(t, s, line, h);
    assert Residual(t, s, r) == -x;
    assert Error(s', line) == 0.8 * x;
    TurnedTimes(s.driftRate, t.driftGain, h, -x);
    TimesNegated(t.driftGain, x);
    TimesLinear(s.driftRate, line.rate, h);
    TimesLinear(s'.driftRate, line.rate, h);
  }

  // The energy of two successive errors

  /** What is left of one error in the next but one. */
  function Turn(t: Tuning): real { 1.8 - t.driftGain }

  /** Energy of an error y and of the next one, x. */
  function Swing(rho: real, turn: real, y: real, x: real): real {
    (rho + 0.8) * (x * x + rho * (y * y)) - 2.0 * (turn * rho) * (x * y)
  }

  /** How far the energy is from being degenerate. */
  function Margin(rho: real, turn: real): real {
    (rho + 0.8) * (rho + 0.8) - rho * (turn * turn)
  }

  predicate Damps(rho: real, turn: real) {
    0.8 <= rho <= 1.0 && Margin(rho, turn) > 0.0
  }

  lemma SwingStep(rho: real, turn: real, y: real, x: real)
    requires 0.8 <= rho
    ensures Swing(rho, turn, x, turn * x - 0.8 * y) <= rho * Swing(rho, turn, y, x)
  {
    var z := turn * x - 0.8 * y;
    var d := z - rho * y;
    assert Swing(rho, turn, x, z) == rho * Swing(rho, turn, y, x) - (rho - 0.8) * (d * d);
    SquareNonNegative(d);
    ProductNonNegative(rho - 0.8, d * d);
  }

  lemma CompletedSquare(a: real, rho: real, y: real, x: real, w: real)
    ensures a * (a * (x * x + rho * (y * y)) - 2.0 * rho * (w * y))
         == a * a * (x * x) - rho * (w * w) + rho * ((a * y - w) * (a * y - w))
  {
  }

  lemma SwingBounds(rho: real, turn: real, y: real, x: real)
    requires 0.0 <= rho
    ensures Times(Margin(rho, turn), Times(x, x)) <= Times(rho + 0.8, Swing(rho, turn, y, x))
  {
    var a, w := rho + 0.8, turn * x;
    CompletedSquare(a, rho, y, x, w);
    assert Swing(rho, turn, y, x) == a * (x * x + rho * (y * y)) - 2.0 * rho * (w * y);
    assert Margin(rho, turn) * (x * x) == a * a * (x * x) - rho * (w * w);
    SquareNonNegative(a * y - w);
    ProductNonNegative(rho, (a * y - w) * (a * y - w));
  }

  /** Energy of the loop's state: what it was off before its last reading was Error / 0.8. */
  function LoopEnergy(rho: real, t: Tuning, s: Loop, line: Line, h: real): real {
    Swing(rho, Turn(t), Error(s, line) / 0.8, Ahead(s, line, h))
  }

  lemma SwingOnce(rho: real, turn: real, y: real, x: real, y': real, x': real)
    requires 0.8 <= rho && y' == x && x' == turn * x - 0.8 * y
    ensures Swing(rho, turn, y', x') <= Times(rho, Swing(rho, turn, y, x))
  {
    SwingStep(rho, turn, y, x);
  }

  lemma TurnOnce(t: Tuning, e: real, x: real)
    ensures 0.8 * x / 0.8 == x && 1.8 * x - Times(t.driftGain, x) - e == Turn(t) * x - 0.8 * (e / 0.8)
  {
  }

  lemma SpinStep(rho: real, t: Tuning, s: Loop, r: Reading, line: Line, h: real)
    requires t.Valid() && t.drift && s.locked && h > 0.0 && !Rejects(t, s, r) && 0.8 <= rho
    requires r.consumer == s.lastConsumer + h && r.Offset() == line.At(r.consumer)
    ensures LoopEnergy(rho, t, Observed(t, s, r.consumer, r.producer), line, h)
         <= Times(rho, LoopEnergy(rho, t, s, line, h))
  {
    DriftStep(t, s, r, line, h);
    var s' := Observed(t, s, r.consumer, r.producer);
    TurnOnce(t, Error(s, line), Ahead(s, line, h));
    SwingOnce(rho, Turn(t), Error(s, line) / 0.8, Ahead(s, line, h), Error(s', line) / 0.8, Ahead(s', line, h));
  }

  // Whole runs

  /** d after n shrinkings by the factor rho. */
  function Decayed(rho: real, n: nat, d: real): real {
    if n == 0 then d else Times(rho, Decayed(rho, n - 1, d))
  }

  lemma Through(a: real, u: real, d: real)
    requires 0.0 <= a && u <= d
    ensures Times(a, u) <= Times(a, d)
  {
  }

  lemma DecayOnce(rho: real, n: nat, d: real, mid: real, next: real)
    requires 0.0 <= rho && mid <= Decayed(rho, n, d) && next <= Times(rho, mid)
    ensures next <= Decayed(rho, n + 1, d)
  {
    Through(rho, mid, Decayed(rho, n, d));
  }

  /** Every reading before the last was let through as well. */
  lemma {:induction false} AdmittedSoFar(t: Tuning, s: Loop, rs: seq<Reading>)
    requires t.Valid()
    ensures Admitted(t, s, rs) <= |rs|
    decreases |rs|
  {
    if rs != [] {
      AdmittedSoFar(t, s, rs[..|rs| - 1]);
    }
  }

  /** With the gate switched off every reading is let through. */
  lemma {:induction false} OpenGate(t: Tuning, s: Loop, rs: seq<Reading>)
    requires t.Valid() && t.sigma.Infinite?
    ensures AllAdmitted(t, s, rs)
    decreases |rs|
  {
    if rs != [] {
      OpenGate(t, s, rs[..|rs| - 1]);
    }
  }

  lemma {:induction false} Shorter(from: real, rs: seq<Reading>, line: Line, h: real)
    requires rs != [] && OnLine(rs, line) && Even(from, rs, h)
    ensures OnLine(rs[..|rs| - 1], line) && Even(from, rs[..|rs| - 1], h)
    ensures rs[|rs| - 1].consumer == TimeBefore(from, rs[..|rs| - 1], |rs| - 1) + h
  {
    var before := rs[..|rs| - 1];
    forall i | 0 <= i < |rs| ensures rs[i].consumer == TimeBefore(from, before, i) + h {
      assert rs[i].consumer == TimeBefore(from, rs, i) + h;
    }
  }

  /** What the last of the readings met. */
  lemma {:induction false} LastReading(t: Tuning, s: Loop, rs: seq<Reading>, line: Line, h: real)
    requires t.Valid() && t.drift && s.locked && h > 0.0 && rs != []
    requires OnLine(rs, line) && Even(s.lastConsumer, rs, h) && AllAdmitted(t, s, rs)
    ensures var before, r := rs[..|rs| - 1], rs[|rs| - 1]; var mid := Fed(t, s, before);
      && OnLine(before, line) && Even(s.lastConsumer, before, h) && AllAdmitted(t, s, before)
      && mid.locked && !Rejects(t, mid, r)
      && r.consumer == mid.lastConsumer + h && r.Offset() == line.At(r.consumer)
    decreases |rs|
  {
    var before := rs[..|rs| - 1];
    AdmittedSoFar(t, s, before);
    Shorter(s.lastConsumer, rs, line, h);
    if before != [] {
      LastReading(t, s, before, line, h);
      DriftStep(t, Fed(t, s, before[..|before| - 1]), before[|before| - 1], line, h);
    }
  }

  lemma {:induction false} EnergyDecays(t: Tuning, s: Loop, rs: seq<Reading>, line: Line, h: real, rho: real)
    requires t.Valid() && t.drift && s.locked && h > 0.0 && 0.8 <= rho
    requires OnLine(rs, line) && Even(s.lastConsumer, rs, h) && AllAdmitted(t, s, rs)
    ensures Fed(t, s, rs).locked
    ensures LoopEnergy(rho, t, Fed(t, s, rs), line, h) <= Decayed(rho, |rs|, LoopEnergy(rho, t, s, line, h))
    decreases |rs|
  {
    if rs != [] {
      var before, r := rs[..|rs| - 1], rs[|rs| - 1];
      LastReading(t, s, rs, line, h);
      EnergyDecays(t, s, before, line, h, rho);
      var mid := Fed(t, s, before);
      SpinStep(rho, t, mid, r, line, h);
      DriftStep(t, mid, r, line, h);
      DecayOnce(rho, |before|, LoopEnergy(rho, t, s, line, h), LoopEnergy(rho, t, mid, line, h),
                LoopEnergy(rho, t, Fed(t, s, rs), line, h));
    }
  }

  lemma ErrorWithin(rho: real, turn: real, y: real, x: real, d: real)
    requires 0.0 <= rho && Swing(rho, turn, y, x) <= d
    ensures Times(Margin(rho, turn), Times(x, x)) <= Times(rho + 0.8, d)
  {
    SwingBounds(rho, turn, y, x);
    Through(rho + 0.8, Swing(rho, turn, y, x), d);
  }

  lemma PhaseErrorWithin(rho: real, t: Tuning, s: Loop, line: Line, h: real, d: real)
    requires 0.0 <= rho && t.drift && s.locked && LoopEnergy(rho, t, s, line, h) <= d
    ensures Times(Margin(rho, Turn(t)), SquaredError(t, s, line, h)) <= Times(rho + 0.8, d)
  {
    AheadIsPhaseError(t, s, line, h);
    ErrorWithin(rho, Turn(t), Error(s, line) / 0.8, Ahead(s, line, h), d);
  }

  /** From any state, the squared error of `phaseLockedTime` at the next reading decays by the factor rho with each
      reading, for every rho that the gain admits. */
  lemma {:induction false} DriftLocks(t: Tuning, s: Loop, rs: seq<Reading>, line: Line, h: real, rho: real)
    requires t.Valid() && t.drift && s.locked && h > 0.0 && Damps(rho, Turn(t))
    requires OnLine(rs, line) && Even(s.lastConsumer, rs, h) && AllAdmitted(t, s, rs)
    ensures Times(Margin(rho, Turn(t)), SquaredError(t, Fed(t, s, rs), line, h))
         <= Times(rho + 0.8, Decayed(rho, |rs|, LoopEnergy(rho, t, s, line, h)))
  {
    EnergyDecays(t, s, rs, line, h, rho);
    PhaseErrorWithin(rho, t, Fed(t, s, rs), line, h, Decayed(rho, |rs|, LoopEnergy(rho, t, s, line, h)));
  }

  // The gains that lock

  lemma MarginAt(rho: real, turn: real, m: real)
    requires m == 3.24 - turn * turn
    ensures Margin(rho, turn) == (rho - 1.0) * (rho - 0.64) + m * rho
  {
  }

  lemma Damped(turn: real, m: real)
    requires m == 3.24 - turn * turn && 0.0 < m
    ensures Damps(1.0 - m / 20.0, turn) && m <= 3.24
  {
    var rho := 1.0 - m / 20.0;
    SquareNonNegative(turn);
    MarginAt(rho, turn, m);
    assert (rho - 1.0) * (rho - 0.64) + m * rho == m * (0.982 - 0.0475 * m);
    ProductPositive(m, 0.982 - 0.0475 * m);
  }

  /** The next error is on the other side of zero and no smaller than the last. */
  predicate Opposed(e: real, x: real) {
    (x >= 0.0 && -0.8 * x <= e <= 0.0) || (x <= 0.0 && 0.0 <= e <= -0.8 * x)
  }

  predicate Swings(s: Loop, line: Line, h: real) {
    Opposed(Error(s, line), Ahead(s, line, h))
  }

  lemma StaysOpposed(gain: real, e: real, x: real)
    requires gain >= 3.6 && Opposed(e, x)
    ensures var z := 1.8 * x - Times(gain, x) - e; Opposed(0.8 * x, z) && Abs(z) >= Abs(x)
  {
    if x >= 0.0 {
      ProductNonNegative(gain - 3.6, x);
    } else {
      ProductNonNegative(gain - 3.6, -x);
    }
  }

  lemma SwingsOn(t: Tuning, s: Loop, r: Reading, line: Line, h: real)
    requires t.Valid() && t.drift && s.locked && h > 0.0 && !Rejects(t, s, r) && t.driftGain >= 3.6
    requires r.consumer == s.lastConsumer + h && r.Offset() == line.At(r.consumer) && Swings(s, line, h)
    ensures var s' := Observed(t, s, r.consumer, r.producer);
      s'.locked && Swings(s', line, h) && Abs(Ahead(s', line, h)) >= Abs(Ahead(s, line, h))
  {
    DriftStep(t, s, r, line, h);
    StaysOpposed(t.driftGain, Error(s, line), Ahead(s, line, h));
  }

  lemma {:induction false} KeepsSwinging(t: Tuning, s: Loop, rs: seq<Reading>, line: Line, h: real)
    requires t.Valid() && t.drift && s.locked && h > 0.0 && t.driftGain >= 3.6 && Swings(s, line, h)
    requires OnLine(rs, line) && Even(s.lastConsumer, rs, h) && AllAdmitted(t, s, rs)
    ensures var s' := Fed(t, s, rs);
      s'.locked && Swings(s', line, h) && Abs(Ahead(s', line, h)) >= Abs(Ahead(s, line, h))
    decreases |rs|
  {
    if rs != [] {
      var before, r := rs[..|rs| - 1], rs[|rs| - 1];
      LastReading(t, s, rs, line, h);
      KeepsSwinging(t, s, before, line, h);
      SwingsOn(t, Fed(t, s, before), r, line, h);
    }
  }

  lemma FreshLock(s: Loop, seed: Reading, line: Line, h: real)
    requires seed.Offset() == line.At(seed.consumer)
    ensures var s0 := Seeded(s, seed.consumer, seed.producer);
      Error(s0, line) == 0.0 && Ahead(s0, line, h) == -Times(line.rate, h) && Swings(s0, line, h)
  {
    TimesLinear(0.0, line.rate, h);
    assert Times(0.0, h) == 0.0;
  }

  /** With a larger gain, a loop freshly locked onto a clock that drifts by d per reading is never again nearer to it
      than d, at any reading. */
  lemma {:induction false} NeverLocks(t: Tuning, s: Loop, seed: Reading, rs: seq<Reading>, line: Line, h: real)
    requires t.Valid() && t.drift && h > 0.0 && t.driftGain >= 3.6 && !s.locked
    requires seed.Offset() == line.At(seed.consumer) && OnLine(rs, line) && Even(seed.consumer, rs, h)
    requires AllAdmitted(t, Observed(t, s, seed.consumer, seed.producer), rs)
    ensures var s' := Fed(t, Observed(t, s, seed.consumer, seed.producer), rs);
      Abs(PhaseErrorAfter(t, s', line, h)) >= Abs(Times(line.rate, h))
  {
    var s0 := Observed(t, s, seed.consumer, seed.producer);
    FreshLock(s, seed, line, h);
    KeepsSwinging(t, s0, rs, line, h);
    AheadIsPhaseError(t, Fed(t, s0, rs), line, h);
  }

  /** After every even run of readings that are let through, the squared error is at most k shrunk by rho a reading. */
  ghost predicate Settles(t: Tuning, s: Loop, line: Line, h: real, rho: real, k: real)
    requires t.Valid()
  {
    forall rs :: OnLine(rs, line) && Even(s.lastConsumer, rs, h) && AllAdmitted(t, s, rs) ==>
      SquaredError(t, Fed(t, s, rs), line, h) <= Decayed(rho, |rs|, k)
  }

  ghost predicate SettlesAt(t: Tuning, s: Loop, line: Line, h: real, rho: real)
    requires t.Valid()
  {
    exists k :: Settles(t, s, line, h, rho, k)
  }

  ghost predicate LocksAt(t: Tuning, rho: real)
    requires t.Valid()
  {
    forall s: Loop, line: Line, h: real :: s.locked && h > 0.0 ==> SettlesAt(t, s, line, h, rho)
  }

  /** At some rate below 1 the error dies out, whatever the state, the clock and the spacing. */
  ghost predicate Locks(t: Tuning)
    requires t.Valid()
  {
    exists rho :: 0.0 <= rho < 1.0 && LocksAt(t, rho)
  }

  lemma {:induction false} DecayedTimes(rho: real, n: nat, c: real, d: real)
    ensures Decayed(rho, n, Times(c, d)) == Times(c, Decayed(rho, n, d))
  {
    if n > 0 {
      DecayedTimes(rho, n - 1, c, d);
      TimesSwap(rho, c, Decayed(rho, n - 1, d));
    }
  }

  lemma TimesSwap(x: real, y: real, z: real)
    ensures Times(x, Times(y, z)) == Times(y, Times(x, z))
  {
  }

  lemma Divided(m: real, x: real, a: real, d: real)
    requires m > 0.0 && Times(m, x) <= Times(a, d)
    ensures x <= Times(a / m, d)
  {
    assert m * (a / m * d) == a * d;
    Cancelled(m, x, a / m * d);
  }

  lemma Cancelled(m: real, x: real, y: real)
    requires m > 0.0 && m * x <= m * y
    ensures x <= y
  {
  }

  lemma {:induction false} RunSettles(t: Tuning, s: Loop, rs: seq<Reading>, line: Line, h: real, rho: real, d: real)
    requires t.Valid() && t.drift && s.locked && h > 0.0 && Damps(rho, Turn(t))
    requires OnLine(rs, line) && Even(s.lastConsumer, rs, h) && AllAdmitted(t, s, rs)
    requires d == LoopEnergy(rho, t, s, line, h)
    ensures SquaredError(t, Fed(t, s, rs), line, h)
         <= Decayed(rho, |rs|, Times((rho + 0.8) / Margin(rho, Turn(t)), d))
  {
    var m := Margin(rho, Turn(t));
    DriftLocks(t, s, rs, line, h, rho);
    Divided(m, SquaredError(t, Fed(t, s, rs), line, h), rho + 0.8, Decayed(rho, |rs|, d));
    DecayedTimes(rho, |rs|, (rho + 0.8) / m, d);
  }

  lemma {:induction false} SmallGainSettles(t: Tuning, s: Loop, line: Line, h: real, rho: real)
    requires t.Valid() && t.drift && s.locked && h > 0.0 && Damps(rho, Turn(t))
    ensures SettlesAt(t, s, line, h, rho)
  {
    var d := LoopEnergy(rho, t, s, line, h);
    var k := Times((rho + 0.8) / Margin(rho, Turn(t)), d);
    forall rs | OnLine(rs, line) && Even(s.lastConsumer, rs, h) && AllAdmitted(t, s, rs)
      ensures SquaredError(t, Fed(t, s, rs), line, h) <= Decayed(rho, |rs|, k)
    {
      RunSettles(t, s, rs, line, h, rho, d);
    }
    assert Settles(t, s, line, h, rho, k);
  }

  lemma {:induction false} SmallGainLocks(t: Tuning)
    requires t.Valid() && t.drift && t.driftGain < 3.6
    ensures Locks(t)
  {
    var m := 3.24 - Turn(t) * Turn(t);
    ProductPositive(t.driftGain, 3.6 - t.driftGain);
    assert m == t.driftGain * (3.6 - t.driftGain);
    Damped(Turn(t), m);
    var rho := 1.0 - m / 20.0;
    forall s: Loop, line: Line, h: real | s.locked && h > 0.0 ensures SettlesAt(t, s, line, h, rho) {
      SmallGainSettles(t, s, line, h, rho);
    }
    assert LocksAt(t, rho);
  }

  // A large gain does not lock

  /** n readings of the clock at spacing h. */
  function Readings(line: Line, from: real, h: real, n: nat): (rs: seq<Reading>)
    ensures |rs| == n && OnLine(rs, line) && Even(from, rs, h)
  {
    if n == 0 then [] else
      var before := Readings(line, from, h, n - 1);
      var x := TimeBefore(from, before, n - 1) + h;
      var rs := before + [Reading(x, x + line.At(x))];
      assert forall i :: 0 <= i < n - 1 ==> TimeBefore(from, rs, i) == TimeBefore(from, before, i);
      rs
  }

  function Pace(rho: real, n: real): real {
    1.0 + n * (1.0 - rho)
  }

  /** A decay is at least as fast as 1 / n. */
  lemma {:induction false} DecaysToNothing(rho: real, n: nat, k: real)
    requires 0.0 <= rho < 1.0 && 0.0 <= k
    ensures 0.0 <= Decayed(rho, n, k) && Times(Decayed(rho, n, k), Pace(rho, n as real)) <= k
  {
    if n == 0 {
      assert Pace(rho, 0.0) == 1.0;
    } else {
      var d := Decayed(rho, n - 1, k);
      DecaysToNothing(rho, n - 1, k);
      Bernoulli(rho, (n - 1) as real, d);
      assert (n - 1) as real + 1.0 == n as real && Decayed(rho, n, k) == Times(rho, d);
    }
  }

  lemma Bernoulli(rho: real, n: real, d: real)
    requires 0.0 <= rho < 1.0 && 0.0 <= n && 0.0 <= d
    ensures 0.0 <= Times(rho, d) && Times(Times(rho, d), Pace(rho, n + 1.0)) <= Times(d, Pace(rho, n))
  {
    var c := (n + 1.0) * ((1.0 - rho) * (1.0 - rho));
    SquareNonNegative(1.0 - rho);
    ProductNonNegative(n + 1.0, (1.0 - rho) * (1.0 - rho));
    ProductNonNegative(d, c);
    ProductNonNegative(rho, d);
    assert rho * (1.0 + (n + 1.0) * (1.0 - rho)) == 1.0 + n * (1.0 - rho) - c;
    assert rho * d * (1.0 + (n + 1.0) * (1.0 - rho)) == d * (rho * (1.0 + (n + 1.0) * (1.0 - rho)));
  }

  lemma OutPaced(rho: real, n: real, k: real)
    requires 0.0 <= rho < 1.0 && 0.0 <= k && n > k / (1.0 - rho)
    ensures Pace(rho, n) > k + 1.0
  {
    ProductPositive(n - k / (1.0 - rho), 1.0 - rho);
    assert k / (1.0 - rho) * (1.0 - rho) == k;
  }

  lemma AtMostShare(d: real, u: real, k: real)
    requires 0.0 <= d && Times(d, u) <= k && 0.0 <= k < u
    ensures d < 1.0
  {
    Cancelled(u, d, k / u);
  }

  lemma BelowOne(rho: real, k: real) returns (n: nat)
    requires 0.0 <= rho < 1.0
    ensures Decayed(rho, n, k) < 1.0
  {
    if k < 1.0 {
      n := 0;
    } else {
      n := (k / (1.0 - rho)).Floor + 1;
      DecaysToNothing(rho, n, k);
      OutPaced(rho, n as real, k);
      AtMostShare(Decayed(rho, n, k), Pace(rho, n as real), k);
    }
  }

  lemma AtLeastOne(x: real)
    requires Abs(x) >= 1.0
    ensures Times(x, x) >= 1.0
  {
    ProductNonNegative(Abs(x) - 1.0, Abs(x) + 1.0);
  }

  lemma UnitLock(t: Tuning) returns (s: Loop)
    requires t.Valid()
    ensures s == Observed(t, FRESH, 0.0, 0.0) && s.locked && s.lastConsumer == 0.0
  {
    s := Observed(t, FRESH, 0.0, 0.0);
  }

  lemma {:induction false} FailingRun(t: Tuning, s: Loop, rho: real, k: real) returns (rs: seq<Reading>)
    requires t.Valid() && t.drift && t.sigma.Infinite? && t.driftGain >= 3.6 && 0.0 <= rho < 1.0
    requires s == Observed(t, FRESH, 0.0, 0.0)
    ensures OnLine(rs, Line(0.0, 1.0)) && Even(0.0, rs, 1.0) && AllAdmitted(t, s, rs)
    ensures SquaredError(t, Fed(t, s, rs), Line(0.0, 1.0), 1.0) > Decayed(rho, |rs|, k)
  {
    var n := BelowOne(rho, k);
    rs := Readings(Line(0.0, 1.0), 0.0, 1.0, n);
    OpenGate(t, s, rs);
    NeverLocks(t, FRESH, Reading(0.0, 0.0), rs, Line(0.0, 1.0), 1.0);
    AtLeastOne(PhaseErrorAfter(t, Fed(t, s, rs), Line(0.0, 1.0), 1.0));
  }

  lemma {:induction false} LargeGainFails(t: Tuning, rho: real)
    requires t.Valid() && t.drift && t.sigma.Infinite? && t.driftGain >= 3.6 && 0.0 <= rho < 1.0
    ensures !LocksAt(t, rho)
  {
    var s := UnitLock(t);
    forall k ensures !Settles(t, s, Line(0.0, 1.0), 1.0, rho, k) {
      var rs := FailingRun(t, s, rho, k);
    }
    assert !SettlesAt(t, s, Line(0.0, 1.0), 1.0, rho);
  }

  /** The loop locks onto every clock of constant rate, as far as its gate lets the readings through, if the gain is
      below 3.6; and, with the gate off, only if. */
  lemma {:induction false} GainExact(t: Tuning)
    requires t.Valid() && t.drift
    ensures t.driftGain < 3.6 ==> Locks(t)
    ensures t.sigma.Infinite? ==> (Locks(t) <==> t.driftGain < 3.6)
  {
    if t.driftGain < 3.6 {
      SmallGainLocks(t);
    } else if t.sigma.Infinite? {
      forall rho | 0.0 <= rho < 1.0 ensures !LocksAt(t, rho) {
        LargeGainFails(t, rho);
      }
    }
  }
}
