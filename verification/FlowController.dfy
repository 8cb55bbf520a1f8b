/** AdaptiveFlowController: the PI loop behind the rings' flow-scale lanes, over exact reals. */
module FlowController {

  const KP := 0.5
  const KI := 0.05
  const INT_LIMIT := 20.0
  const Q := 65536

  function Clamp(x: real, lo: real, hi: real): real {
    if x < lo then lo else if x > hi then hi else x
  }

  function Error(buffered: int, capacity: nat): real
    requires capacity > 0
  {
    buffered as real / capacity as real - 0.5
  }

  /** The integral after one more error. */
  function Integrated(integral: real, err: real): (i: real)
    ensures -INT_LIMIT <= i <= INT_LIMIT
  {
    Clamp(integral + err, -INT_LIMIT, INT_LIMIT)
  }

  function RawScale(err: real, integral: real): real {
    1.0 - KP * err - KI * integral
  }

  function Encode(scale: real): int {
    (scale * Q as real).Floor
  }

  class AdaptiveFlowController {
    const minScale: real
    const maxScale: real
    var integral: real

    ghost predicate Valid()
      reads this
    {
      -INT_LIMIT <= integral <= INT_LIMIT
    }

    constructor (minScale: real, maxScale: real)
      ensures Valid() && integral == 0.0 && this.minScale == minScale && this.maxScale == maxScale
    {
      this.minScale, this.maxScale, integral := minScale, maxScale, 0.0;
    }

    /** Every value it returns is an encoded scale between the encoded clamps, and the integral never winds up. */
    method Tick(buffered: int, capacity: nat) returns (encoded: int)
      requires Valid() && capacity > 0
      modifies this
      ensures Valid() && integral == Integrated(old(integral), Error(buffered, capacity))
      ensures encoded == Encode(Clamp(RawScale(Error(buffered, capacity), integral), minScale, maxScale))
      ensures var err := buffered as real / capacity as real - 0.5;
        var sum, raw := old(integral) + err, 1.0 - 0.5 * err - 0.05 * integral;
        var scale := if raw < minScale then minScale else if raw > maxScale then maxScale else raw;
        && integral == (if sum > 20.0 then 20.0 else if sum < -20.0 then -20.0 else sum)
        && encoded as real <= 65536.0 * scale < encoded as real + 1.0
      ensures minScale <= maxScale ==> Encode(minScale) <= encoded <= Encode(maxScale)
    {
      var occupancy := buffered as real / capacity as real;
      var err := occupancy - 0.5;
      var sum := integral + err;
      if sum > INT_LIMIT {
        sum := INT_LIMIT;
      } else if sum < -INT_LIMIT {
        sum := -INT_LIMIT;
      }
      integral := sum;
      var scale := RawScale(err, sum);
      if scale < minScale {
        scale := minScale;
      } else if scale > maxScale {
        scale := maxScale;
      }
      encoded := Encode(scale);
      if minScale <= maxScale {
        EncodeMonotone(minScale, scale);
        EncodeMonotone(scale, maxScale);
      }
    }

    method Reset()
      requires Valid()
      modifies this
      ensures Valid() && integral == 0.0
    {
      integral := 0.0;
    }
  }

  lemma EncodeMonotone(x: real, y: real)
    requires x <= y
    ensures Encode(x) <= Encode(y)
  {
  }

  /** The integral after a series of errors. */
  function IntegralAfter(integral: real, errs: seq<real>): (i: real)
    ensures errs != [] ==> -INT_LIMIT <= i <= INT_LIMIT
  {
    if errs == [] then integral else Integrated(IntegralAfter(integral, errs[..|errs| - 1]), errs[|errs| - 1])
  }

  function Drop(n: nat, e: real): real {
    n as real * e
  }

  lemma DropNext(n: nat, e: real)
    ensures Drop(n + 1, e) == Drop(n, e) + e && Drop(0, e) == 0.0
  {
  }

  /** Errors of at least e below zero pull the integral down by e a tick until it reaches the lower limit. */
  lemma {:induction false} IntegralFalls(integral: real, errs: seq<real>, e: real)
    requires integral <= INT_LIMIT && e > 0.0
    requires forall i :: 0 <= i < |errs| ==> errs[i] <= -e
    ensures IntegralAfter(integral, errs) <= INT_LIMIT - Drop(|errs|, e) || IntegralAfter(integral, errs) == -INT_LIMIT
    decreases |errs|
  {
    DropNext(0, e);
    if errs != [] {
      IntegralFalls(integral, errs[..|errs| - 1], e);
      DropNext(|errs| - 1, e);
    }
  }

  /** Recovery: from whatever state a stall has left, once the ring stays at or below half full by a margin e,
      the scale is above 1 from the first tick past 20 / e - 10 on. */
  lemma Recovers(integral: real, errs: seq<real>, e: real)
    requires -INT_LIMIT <= integral <= INT_LIMIT && e > 0.0 && errs != []
    requires forall i :: 0 <= i < |errs| ==> errs[i] <= -e
    requires |errs| as real > 20.0 / e - 10.0
    ensures RawScale(errs[|errs| - 1], IntegralAfter(integral, errs)) > 1.0
  {
    IntegralFalls(integral, errs, e);
    Enough(|errs|, e);
  }

  lemma Enough(n: nat, e: real)
    requires e > 0.0
    ensures n as real > 20.0 / e - 10.0 <==> Drop(n, e) + 10.0 * e > 20.0
  {
    var q := 20.0 / e;
    assert q * e == 20.0;
    Scaled(q, n as real + 10.0, e);
    Scaled(n as real + 10.0, q, e);
    assert (n as real + 10.0) * e == Drop(n, e) + 10.0 * e;
  }

  lemma Scaled(x: real, y: real, e: real)
    requires e > 0.0
    ensures x < y ==> x * e < y * e
    ensures x <= y ==> x * e <= y * e
  {
    if x < y {
      assert (y - x) * e > 0.0;
    }
  }

  function Constant(err: real, n: nat): (errs: seq<real>)
    ensures |errs| == n && forall i :: 0 <= i < n ==> errs[i] == err
  {
    seq(n, _ => err)
  }

  lemma {:induction false} Saturated(e: real, n: nat)
    requires 0.0 < e && Drop(n, e) <= 40.0
    ensures IntegralAfter(INT_LIMIT, Constant(-e, n)) == INT_LIMIT - Drop(n, e)
    decreases n
  {
    DropNext(0, e);
    if n > 0 {
      DropNext(n - 1, e);
      Saturated(e, n - 1);
      assert Constant(-e, n)[..n - 1] == Constant(-e, n - 1);
    }
  }

  /** The bound is sharp: from a saturated integral and a steady margin e, the scale exceeds 1 at tick n if and
      only if n > 20 / e - 10, for as long as the integral has not reached its other limit. */
  lemma RecoveryIsSharp(e: real, n: nat)
    requires e > 0.0 && n > 0 && Drop(n, e) <= 40.0
    ensures RawScale(-e, IntegralAfter(INT_LIMIT, Constant(-e, n))) > 1.0 <==> n as real > 20.0 / e - 10.0
  {
    Saturated(e, n);
    Enough(n, e);
  }
}
