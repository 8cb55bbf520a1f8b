/** What one observation comes to, in numbers: which readings the outlier gate turns away, and where an admitted one
    leaves the loop. */
module ClockGate {
  import opened Int32
  import opened ClockRecovery

  /** The distance of a reading from the offset that the loop expects at its time. */
  function Away(t: Tuning, s: Loop, consumer: real, producer: real): real {
    var drifted := if t.drift then s.driftRate * (consumer - s.lastConsumer) else 0.0;
    var off := (producer - consumer) - (s.offset + drifted);
    if off < 0.0 then -off else off
  }

  /** Past its warm-up and with a noise scale, a loop with a finite multiplier k holds a reading for an outlier that is
      more than k times the noise scale away. */
  predicate Far(t: Tuning, s: Loop, consumer: real, producer: real) {
    && t.sigma.Finite? && s.sinceLock >= t.warmup && s.sigma > 0.0
    && Away(t, s, consumer, producer) > t.sigma.value * s.sigma
  }

  /** One more outlier does not carry the streak past the limit. */
  predicate Patient(t: Tuning, s: Loop) {
    t.limit.Infinite? || ToInt32(s.streak + 1) as real <= t.limit.value
  }

  function Residual(t: Tuning, s: Loop, consumer: real, producer: real): real {
    (producer - consumer) - Expected(t, s, consumer)
  }

  lemma AwayIs(t: Tuning, s: Loop, consumer: real, producer: real)
    ensures Away(t, s, consumer, producer) == Abs(Residual(t, s, consumer, producer))
    ensures !t.drift ==> Residual(t, s, consumer, producer) == (producer - consumer) - s.offset
  {
  }

  lemma FarIs(t: Tuning, s: Loop, consumer: real, producer: real)
    ensures Far(t, s, consumer, producer) <==> IsOutlier(t, s, Residual(t, s, consumer, producer))
    ensures Far(t, s, consumer, producer) && Patient(t, s)
       <==> TurnedAway(t, s, Residual(t, s, consumer, producer))
  {
    AwayIs(t, s, consumer, producer);
  }

  lemma Admitted(t: Tuning, s: Loop, consumer: real, producer: real)
    requires t.Valid() && s.locked && !(Far(t, s, consumer, producer) && Patient(t, s))
    ensures var residual := Residual(t, s, consumer, producer);
      Observed(t, s, consumer, producer)
      == Settled(t, Steered(t, LetThrough(t, s, residual), consumer, residual), consumer, residual)
  {
    FarIs(t, s, consumer, producer);
  }

  lemma SettledScale(t: Tuning, s: Loop, consumer: real, residual: real)
    requires t.Valid()
    ensures var s0 := LetThrough(t, s, residual);
      Settled(t, Steered(t, s0, consumer, residual), consumer, residual).sigma
      == if s0.sigma == 0.0 then Abs(residual) else Blended(t.alpha, s0.sigma, Abs(residual))
  {
  }

  lemma CounterMoves(x: int)
    ensures ToInt32(x + 1) != x
  {
  }

  /** A locked loop rejects a reading if and only if it is far off and the streak may still grow; then it only counts.
      In every other case the reading is admitted, and its time becomes the last one. */
  lemma GateExact(t: Tuning, s: Loop, consumer: real, producer: real)
    requires t.Valid() && s.locked
    ensures var s' := Observed(t, s, consumer, producer);
      && (s'.rejected != s.rejected <==> Far(t, s, consumer, producer) && Patient(t, s))
      && (s'.rejected != s.rejected ==>
            s' == s.(rejected := ToInt32(s.rejected + 1), streak := ToInt32(s.streak + 1)))
      && (s'.rejected == s.rejected ==> s'.locked && s'.lastConsumer == consumer)
  {
    CounterMoves(s.rejected);
    FarIs(t, s, consumer, producer);
  }

  /** The streak ends with any reading that the armed gate admits, and the end of one is counted as a recovery. */
  lemma StreakExact(t: Tuning, s: Loop, consumer: real, producer: real)
    requires t.Valid() && s.locked && !(Far(t, s, consumer, producer) && Patient(t, s))
    ensures var s' := Observed(t, s, consumer, producer);
      var armed := t.sigma.Finite? && s.sinceLock >= t.warmup && s.sigma > 0.0;
      && s'.streak == (if armed then 0 else s.streak)
      && s'.recoveries == (if armed && (s.streak > 0 || Far(t, s, consumer, producer)) then ToInt32(s.recoveries + 1)
                           else s.recoveries)
      && s'.sinceLock == (if s.sinceLock <= t.warmup then ToInt32(s.sinceLock + 1) else s.sinceLock)
  {
  }

  /** An admitted reading moves the noise scale a share alpha of the way from where it was to the reading's distance,
      and with no scale yet it becomes that distance. */
  lemma ScaleExact(t: Tuning, s: Loop, consumer: real, producer: real)
    requires t.Valid() && s.locked && !Far(t, s, consumer, producer)
    ensures var s', d := Observed(t, s, consumer, producer), Away(t, s, consumer, producer);
      s'.sigma == if s.sigma == 0.0 then d else s.sigma + t.alpha * (d - s.sigma)
  {
    AwayIs(t, s, consumer, producer);
    FarIs(t, s, consumer, producer);
    Admitted(t, s, consumer, producer);
    SettledScale(t, s, consumer, Residual(t, s, consumer, producer));
    BlendIs(t.alpha, s.sigma, Away(t, s, consumer, producer));
  }

  /** A step that is let through starts the scale at its distance over k. */
  lemma StepScale(t: Tuning, s: Loop, consumer: real, producer: real)
    requires t.Valid() && s.locked && Far(t, s, consumer, producer) && !Patient(t, s)
    ensures var s', d := Observed(t, s, consumer, producer), Away(t, s, consumer, producer);
      s'.sigma == d / t.sigma.value + t.alpha * (d - d / t.sigma.value)
  {
    var d := Away(t, s, consumer, producer);
    AwayIs(t, s, consumer, producer);
    FarIs(t, s, consumer, producer);
    Admitted(t, s, consumer, producer);
    SettledScale(t, s, consumer, Residual(t, s, consumer, producer));
    StillFar(t.sigma.value, s.sigma, d);
    BlendIs(t.alpha, d / t.sigma.value, d);
  }

  lemma BlendIs(alpha: real, from: real, to: real)
    ensures Blended(alpha, from, to) == from + alpha * (to - from)
  {
  }

  lemma StillFar(k: real, sigma: real, d: real)
    requires k > 0.0 && sigma > 0.0 && d > k * sigma
    ensures d / k > 0.0
  {
    assert k * sigma > 0.0;
    assert d / k * k == d;
  }

  /** Where an admitted reading leaves the offset without drift: a fifth of the residual on, and a hundredth of the
      clamped integral. */
  lemma OffsetExact(t: Tuning, s: Loop, consumer: real, producer: real)
    requires t.Valid() && !t.drift && s.locked && !(Far(t, s, consumer, producer) && Patient(t, s))
    ensures var s' := Observed(t, s, consumer, producer);
      var sum := s.integral + ((producer - consumer) - s.offset);
      && s'.integral == (if sum > 1000000.0 then 1000000.0 else if sum < -1000000.0 then -1000000.0 else sum)
      && s'.offset == s.offset + 0.2 * ((producer - consumer) - s.offset) + 0.01 * s'.integral
      && s'.driftRate == s.driftRate
  {
    AwayIs(t, s, consumer, producer);
    Admitted(t, s, consumer, producer);
  }

  /** With drift, it is a fifth of the residual on from the extrapolated offset; and if time has moved forward, the rate
      turns by the residual per unit of time, times the gain. */
  lemma DriftExact(t: Tuning, s: Loop, consumer: real, producer: real)
    requires t.Valid() && t.drift && s.locked && !(Far(t, s, consumer, producer) && Patient(t, s))
    ensures var s', dt := Observed(t, s, consumer, producer), consumer - s.lastConsumer;
      var ahead := s.offset + s.driftRate * dt;
      var residual := (producer - consumer) - ahead;
      && s'.integral == s.integral && s'.offset == ahead + 0.2 * residual
      && s'.driftRate == if dt > 0.0 then s.driftRate + t.driftGain / dt * residual else s.driftRate
  {
    Admitted(t, s, consumer, producer);
  }

  /** The first reading after construction or a reset is taken as it is, and the time mapped by it is the producer's. */
  lemma FirstReading(t: Tuning, s: Loop, consumer: real, producer: real)
    requires t.Valid() && !s.locked
    ensures var s' := Observed(t, s, consumer, producer);
      && s' == Loop(producer - consumer, 0.0, true, 0.0, 0, 0, s.rejected, s.recoveries, 0.0, consumer)
      && PhaseLocked(t, s', consumer) == producer && PhaseLocked(t, s, consumer) == consumer
  {
  }

  /** A lone spike moves no mapped time, past or future, as long as the limit lets one pass. */
  lemma SpikeIsHarmless(t: Tuning, s: Loop, consumer: real, producer: real, later: real)
    requires t.Valid() && s.locked && s.streak == 0 && Far(t, s, consumer, producer)
    requires t.limit.Infinite? || t.limit.value >= 1.0
    ensures PhaseLocked(t, Observed(t, s, consumer, producer), later) == PhaseLocked(t, s, later)
  {
    GateExact(t, s, consumer, producer);
  }
}
