/** ConsumerClockRecovery: the consumer-side phase-locked loop with its outlier gate, over exact reals. */
module ClockRecovery {
  import opened Int32

  /** A number option that may also be Infinity. */
  datatype Bound = Finite(value: real) | Infinite {
    predicate Below(x: real) {
      Finite? && x > value
    }
  }

  datatype Tuning = Tuning(sigma: Bound, warmup: nat, alpha: real, limit: Bound, drift: bool, driftGain: real) {
    /** What the constructor accepts. */
    predicate Valid() {
      && (sigma.Finite? ==> sigma.value > 0.0)
      && 0.0 < alpha <= 1.0
      && (limit.Finite? ==> limit.value >= 0.0)
      && driftGain > 0.0
    }
  }

  const KP := 0.2
  const KI := 0.01
  const INT_LIMIT := 1000000.0

  datatype Loop = Loop(offset: real, integral: real, locked: bool, sigma: real, sinceLock: int, streak: int,
                       rejected: int, recoveries: int, driftRate: real, lastConsumer: real)

  const FRESH := Loop(0.0, 0.0, false, 0.0, 0, 0, 0, 0, 0.0, 0.0)

  function Abs(x: real): real {
    if x < 0.0 then -x else x
  }

  // The loop's products, named so that the code and its specification share them.
  function Extrapolated(offset: real, rate: real, dt: real): real { offset + rate * dt }
  function Threshold(multiplier: real, sigma: real): real { multiplier * sigma }
  function Turned(rate: real, gain: real, dt: real, residual: real): real
    requires dt != 0.0
  {
    rate + gain / dt * residual
  }
  function Blended(alpha: real, sigma: real, x: real): real { (1.0 - alpha) * sigma + alpha * x }

  function Corrected(expected: real, residual: real): real { expected + KP * residual }
  function Integrated(corrected: real, integral: real): real { corrected + KI * integral }

  /** The offset expected at consumer time `consumer`. */
  function Expected(t: Tuning, s: Loop, consumer: real): real {
    if t.drift then Extrapolated(s.offset, s.driftRate, consumer - s.lastConsumer) else s.offset
  }

  predicate GateActive(t: Tuning, s: Loop) {
    s.sinceLock >= t.warmup && s.sigma > 0.0 && t.sigma.Finite?
  }

  predicate IsOutlier(t: Tuning, s: Loop, residual: real) {
    GateActive(t, s) && Abs(residual) > Threshold(t.sigma.value, s.sigma)
  }

  /** An outlier is turned away unless it makes the streak longer than the limit. */
  predicate TurnedAway(t: Tuning, s: Loop, residual: real) {
    IsOutlier(t, s, residual) && !t.limit.Below(ToInt32(s.streak + 1) as real)
  }

  /** Gate bookkeeping of an observation that is let through. */
  function LetThrough(t: Tuning, s: Loop, residual: real): Loop
    requires t.Valid()
  {
    if IsOutlier(t, s, residual) then
      s.(sigma := Abs(residual) / t.sigma.value, streak := 0, recoveries := ToInt32(s.recoveries + 1))
    else if GateActive(t, s) then
      s.(streak := 0, recoveries := if s.streak > 0 then ToInt32(s.recoveries + 1) else s.recoveries)
    else s
  }

  function Clamped(x: real): (y: real)
    ensures -INT_LIMIT <= y <= INT_LIMIT
  {
    if x > INT_LIMIT then INT_LIMIT else if x < -INT_LIMIT then -INT_LIMIT else x
  }

  /** The controller proper: a g-h step in drift mode, a PI step otherwise. */
  function Steered(t: Tuning, s: Loop, consumer: real, residual: real): Loop {
    var dt := consumer - s.lastConsumer;
    var expected := Expected(t, s, consumer);
    if t.drift then
      s.(offset := Corrected(expected, residual),
         driftRate := if dt > 0.0 then Turned(s.driftRate, t.driftGain, dt, residual) else s.driftRate)
    else
      var integral := Clamped(s.integral + residual);
      s.(integral := integral, offset := Integrated(Corrected(expected, residual), integral))
  }

  /** The noise scale and the warm-up count, after the controller. */
  function Settled(t: Tuning, s: Loop, consumer: real, residual: real): Loop {
    s.(lastConsumer := consumer,
       sigma := if s.sigma == 0.0 then Abs(residual) else Blended(t.alpha, s.sigma, Abs(residual)),
       sinceLock := if s.sinceLock <= t.warmup then ToInt32(s.sinceLock + 1) else s.sinceLock)
  }

  function Seeded(s: Loop, consumer: real, producer: real): Loop {
    Loop(producer - consumer, 0.0, true, 0.0, 0, 0, s.rejected, s.recoveries, 0.0, consumer)
  }

  function CountedAway(s: Loop): Loop {
    s.(streak := ToInt32(s.streak + 1), rejected := ToInt32(s.rejected + 1))
  }

  /** One call of `observe`. */
  function Observed(t: Tuning, s: Loop, consumer: real, producer: real): Loop
    requires t.Valid()
  {
    if !s.locked then Seeded(s, consumer, producer) else
      var residual := (producer - consumer) - Expected(t, s, consumer);
      if TurnedAway(t, s, residual) then CountedAway(s)
      else
        Settled(t, Steered(t, LetThrough(t, s, residual), consumer, residual), consumer, residual)
  }

  /** `reset` keeps the two cumulative counters. */
  function Cleared(s: Loop): Loop {
    FRESH.(rejected := s.rejected, recoveries := s.recoveries)
  }

  function PhaseLocked(t: Tuning, s: Loop, consumer: real): real {
    if !s.locked then consumer else consumer + Expected(t, s, consumer)
  }

  class ConsumerClockRecovery {
    const t: Tuning
    var offsetNs: real
    var integral: real
    var locked: bool
    var sigmaEwma: real
    var observationsSinceLock: int
    var consecutiveOutliers: int
    var outliersRejected: int
    var stallRecoveries: int
    var driftRate: real
    var lastConsumerNs: real

    function State(): Loop
      reads this
    {
      Loop(offsetNs, integral, locked, sigmaEwma, observationsSinceLock, consecutiveOutliers,
           outliersRejected, stallRecoveries, driftRate, lastConsumerNs)
    }

    constructor (t: Tuning)
      requires t.Valid()
      ensures this.t == t && State() == FRESH
    {
      this.t := t;
      offsetNs, integral, locked, sigmaEwma := 0.0, 0.0, false, 0.0;
      observationsSinceLock, consecutiveOutliers, outliersRejected, stallRecoveries := 0, 0, 0, 0;
      driftRate, lastConsumerNs := 0.0, 0.0;
    }

    /** The outlier gate; true when the observation is turned away. */
    method Gate(residual: real) returns (turnedAway: bool)
      requires t.Valid()
      modifies this
      ensures turnedAway == TurnedAway(t, old(State()), residual)
      ensures State() == if turnedAway then CountedAway(old(State())) else LetThrough(t, old(State()), residual)
    {
      var absRes := if residual < 0.0 then -residual else residual;
      turnedAway := false;
      if observationsSinceLock >= t.warmup && sigmaEwma > 0.0 && t.sigma.Finite? {
        if absRes > Threshold(t.sigma.value, sigmaEwma) {
          consecutiveOutliers := ToInt32(consecutiveOutliers + 1);
          if t.limit.Below(consecutiveOutliers as real) {
            sigmaEwma := absRes / t.sigma.value;
            consecutiveOutliers := 0;
            stallRecoveries := ToInt32(stallRecoveries + 1);
          } else {
            outliersRejected := ToInt32(outliersRejected + 1);
            turnedAway := true;
          }
        } else {
          if consecutiveOutliers > 0 {
            stallRecoveries := ToInt32(stallRecoveries + 1);
          }
          consecutiveOutliers := 0;
        }
      }
    }

    /** The controller. */
    method Steer(consumerNs: real, residual: real)
      requires t.Valid()
      modifies this
      ensures State() == Steered(t, old(State()), consumerNs, residual)
    {
      var dt := consumerNs - lastConsumerNs;
      var predicted := if t.drift then Extrapolated(offsetNs, driftRate, dt) else offsetNs;
      if t.drift {
        offsetNs := Corrected(predicted, residual);
        if dt > 0.0 {
          driftRate := Turned(driftRate, t.driftGain, dt, residual);
        }
      } else {
        var sum := integral + residual;
        if sum > INT_LIMIT {
          sum := INT_LIMIT;
        } else if sum < -INT_LIMIT {
          sum := -INT_LIMIT;
        }
        integral := sum;
        offsetNs := Integrated(Corrected(predicted, residual), sum);
      }
    }

    method Settle(consumerNs: real, residual: real)
      modifies this
      ensures State() == Settled(t, old(State()), consumerNs, residual)
    {
      var absRes := if residual < 0.0 then -residual else residual;
      lastConsumerNs := consumerNs;
      if sigmaEwma == 0.0 {
        sigmaEwma := absRes;
      } else {
        sigmaEwma := Blended(t.alpha, sigmaEwma, absRes);
      }
      if observationsSinceLock <= t.warmup {
        observationsSinceLock := ToInt32(observationsSinceLock + 1);
      }
    }

    method Observe(consumerNs: real, producerNs: real)
      requires t.Valid()
      modifies this
      ensures State() == Observed(t, old(State()), consumerNs, producerNs)
    {
      if !locked {
        offsetNs := producerNs - consumerNs;
        integral, sigmaEwma, observationsSinceLock, consecutiveOutliers := 0.0, 0.0, 0, 0;
        driftRate, lastConsumerNs, locked := 0.0, consumerNs, true;
        return;
      }
      var dt := consumerNs - lastConsumerNs;
      var predicted := if t.drift then Extrapolated(offsetNs, driftRate, dt) else offsetNs;
      var residual := (producerNs - consumerNs) - predicted;
      var turnedAway := Gate(residual);
      if !turnedAway {
        Steer(consumerNs, residual);
        Settle(consumerNs, residual);
      }
    }

    method PhaseLockedTime(consumerNs: real) returns (ns: real)
      ensures ns == PhaseLocked(t, State(), consumerNs)
    {
      if !locked {
        return consumerNs;
      }
      if !t.drift {
        return consumerNs + offsetNs;
      }
      var dt := consumerNs - lastConsumerNs;
      return consumerNs + Extrapolated(offsetNs, driftRate, dt);
    }

    method Reset()
      modifies this
      ensures State() == Cleared(old(State()))
      ensures !locked && offsetNs == integral == sigmaEwma == driftRate == 0.0
      ensures observationsSinceLock == consecutiveOutliers == 0
      ensures outliersRejected == old(outliersRejected) && stallRecoveries == old(stallRecoveries)
    {
      locked, offsetNs, integral, sigmaEwma := false, 0.0, 0.0, 0.0;
      observationsSinceLock, consecutiveOutliers, driftRate, lastConsumerNs := 0, 0, 0.0, 0.0;
    }
  }
}
