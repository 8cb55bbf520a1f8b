/** Angles modulo a period, and the unwrapper that lifts them back onto the line, over exact reals. */
module Circular {
  import opened Int32

  /** `Math.round`: to the nearest integer, a half going up. */
  function Round(x: real): int {
    (x + 0.5).Floor
  }

  function Turns(n: int, period: real): real {
    n as real * period
  }

  predicate InBand(x: real, period: real) {
    -period / 2.0 <= x < period / 2.0
  }

  ghost predicate Congruent(x: real, y: real, period: real) {
    exists n: int :: x - y == Turns(n, period)
  }

  function WrapSymmetric(x: real, period: real): (y: real)
    requires period > 0.0
    ensures InBand(y, period)
    ensures x - y == Turns(Round(x / period), period)
  {
    WrapBand(x, period);
    x - Turns(Round(x / period), period)
  }

  lemma Scaled(x: real, y: real, period: real)
    requires period > 0.0
    ensures x <= y ==> x * period <= y * period
    ensures x < y ==> x * period < y * period
  {
    if x < y {
      assert (y - x) * period > 0.0;
    }
  }

  lemma WrapBand(x: real, period: real)
    requires period > 0.0
    ensures InBand(x - Turns(Round(x / period), period), period)
  {
    var q := x / period;
    assert x == q * period;
    BandOf(x, q, Round(q), period);
  }

  lemma FractionInBand(f: real, period: real)
    requires period > 0.0 && -0.5 <= f < 0.5
    ensures InBand(f * period, period)
  {
    Scaled(-0.5, f, period);
    Scaled(f, 0.5, period);
  }

  lemma Distributes(a: real, b: real, p: real)
    ensures (a - b) * p == a * p - b * p
  {
  }

  lemma BandOf(x: real, q: real, n: int, period: real)
    requires period > 0.0 && x == q * period && -0.5 <= q - n as real < 0.5
    ensures InBand(x - Turns(n, period), period)
  {
    var f := q - n as real;
    FractionInBand(f, period);
    assert x - Turns(n, period) == f * period by {
      Distributes(q, n as real, period);
    }
  }

  /** A whole turn or more is at least one period. */
  lemma TurnsFar(n: int, period: real)
    requires period > 0.0
    ensures n >= 1 ==> Turns(n, period) >= period
    ensures n <= -1 ==> Turns(n, period) <= -period
    ensures n == 0 ==> Turns(n, period) == 0.0
  {
    Scaled(1.0, n as real, period);
    Scaled(n as real, -1.0, period);
  }

  /** Two numbers of one band that differ by whole turns are equal. */
  lemma BandUnique(x: real, y: real, n: int, period: real)
    requires period > 0.0 && InBand(x, period) && InBand(y, period) && x - y == Turns(n, period)
    ensures x == y
  {
    TurnsFar(n, period);
  }

  lemma TurnsAdd(m: int, n: int, period: real)
    ensures Turns(m + n, period) == Turns(m, period) + Turns(n, period)
    ensures Turns(-n, period) == -Turns(n, period)
  {
  }

  /** `wrapSymmetric` picks the one representative of x that lies in [-period/2, period/2). */
  lemma WrapUnique(x: real, y: real, period: real)
    requires period > 0.0
    ensures y == WrapSymmetric(x, period) <==> InBand(y, period) && Congruent(x, y, period)
  {
    var w := WrapSymmetric(x, period);
    if InBand(y, period) && Congruent(x, y, period) {
      var n :| x - y == Turns(n, period);
      var m := Round(x / period);
      TurnsAdd(m, -n, period);
      TurnsAdd(0, n, period);
      BandUnique(y, w, m - n, period);
    }
  }

  /** Whole turns make no difference. */
  lemma WrapShift(x: real, n: int, period: real)
    requires period > 0.0
    ensures WrapSymmetric(x + Turns(n, period), period) == WrapSymmetric(x, period)
  {
    TurnsAdd(Round(x / period), n, period);
    var y := WrapSymmetric(x, period);
    assert x + Turns(n, period) - y == Turns(Round(x / period) + n, period);
    WrapUnique(x + Turns(n, period), y, period);
  }

  function ShortestArcDelta(a: real, b: real, period: real): real
    requires period > 0.0
  {
    WrapSymmetric(b - a, period)
  }

  function AbsReal(x: real): real {
    if x < 0.0 then -x else x
  }

  /** The delta leads from a to b on the circle, and no displacement that does is shorter. */
  lemma ShortestArc(a: real, b: real, period: real, n: int)
    requires period > 0.0
    ensures Congruent(a + ShortestArcDelta(a, b, period), b, period)
    ensures AbsReal(ShortestArcDelta(a, b, period)) <= AbsReal(b - a - Turns(n, period))
  {
    var d, m := ShortestArcDelta(a, b, period), Round((b - a) / period);
    TurnsAdd(0, m, period);
    assert a + d - b == Turns(-m, period);
    TurnsAdd(m, -n, period);
    TurnsAdd(0, n, period);
    assert b - a - Turns(n, period) == d + Turns(m - n, period);
    TurnsFar(m - n, period);
  }

  function CircularLerp(a: real, b: real, alpha: real, period: real): (y: real)
    requires period > 0.0
    ensures InBand(y, period)
  {
    WrapSymmetric(Along(a, alpha, ShortestArcDelta(a, b, period)), period)
  }

  function Along(a: real, alpha: real, d: real): real {
    a + alpha * d
  }

  /** The blend starts at a and ends at b. */
  lemma LerpEnds(a: real, b: real, period: real)
    requires period > 0.0
    ensures CircularLerp(a, b, 0.0, period) == WrapSymmetric(a, period)
    ensures CircularLerp(a, b, 1.0, period) == WrapSymmetric(b, period)
  {
    var m := Round((b - a) / period);
    TurnsAdd(0, m, period);
    assert a + 0.0 * ShortestArcDelta(a, b, period) == a;
    assert a + 1.0 * ShortestArcDelta(a, b, period) == b + Turns(-m, period);
    WrapShift(b, -m, period);
  }

  lemma Represents(x: real, period: real)
    requires period > 0.0
    ensures Congruent(x, WrapSymmetric(x, period), period)
  {
  }

  /** In between, and beyond, it is alpha of the way along the shorter arc: d is the one displacement in
      [-period/2, period/2) that leads from a to b. */
  lemma LerpAlong(a: real, b: real, alpha: real, period: real, d: real)
    requires period > 0.0 && InBand(d, period) && Congruent(b - a, d, period)
    ensures InBand(CircularLerp(a, b, alpha, period), period)
    ensures Congruent(a + alpha * d, CircularLerp(a, b, alpha, period), period)
  {
    WrapUnique(b - a, d, period);
    assert CircularLerp(a, b, alpha, period) == WrapSymmetric(Along(a, alpha, d), period);
    Represents(Along(a, alpha, d), period);
  }

  // The unwrapper

  datatype Cover = Cover(seeded: bool, unwrapped: real, last: real, seed: real, windings: int, slips: int)

  const UNSEEDED := Cover(false, 0.0, 0.0, 0.0, 0, 0)

  function Pushed(period: real, threshold: real, s: Cover, sample: real): Cover
    requires period > 0.0
  {
    var w := WrapSymmetric(sample, period);
    if !s.seeded then Cover(true, w, w, w, s.windings, s.slips) else
      var unwrapped := s.unwrapped + ShortestArcDelta(s.last, sample, period);
      Cover(true, unwrapped, w, s.seed, Round((unwrapped - s.seed) / period),
            if AbsReal(w - s.last) > threshold * period then ToInt32(s.slips + 1) else s.slips)
  }

  function Cleared(s: Cover): Cover {
    UNSEEDED.(slips := s.slips)
  }

  class CircularUnwrapper {
    const period: real
    const slipThreshold: real
    var unwrapped: real
    var lastWrapped: real
    var seed: real
    var windings: int
    var cycleSlips: int
    var seeded: bool

    function State(): Cover
      reads this
    {
      Cover(seeded, unwrapped, lastWrapped, seed, windings, cycleSlips)
    }

    constructor (period: real, slipThreshold: real)
      requires period > 0.0 && slipThreshold > 0.0
      ensures this.period == period && this.slipThreshold == slipThreshold && State() == UNSEEDED
    {
      this.period, this.slipThreshold := period, slipThreshold;
      unwrapped, lastWrapped, seed, windings, cycleSlips, seeded := 0.0, 0.0, 0.0, 0, 0, false;
    }

    method Push(wrapped: real) returns (r: real)
      requires period > 0.0
      modifies this
      ensures State() == Pushed(period, slipThreshold, old(State()), wrapped) && r == unwrapped
    {
      var w := WrapSymmetric(wrapped, period);
      if !seeded {
        unwrapped, lastWrapped, seed, seeded := w, w, w, true;
        return unwrapped;
      }
      var rawSpan := w - lastWrapped;
      var absRaw := if rawSpan < 0.0 then -rawSpan else rawSpan;
      if absRaw > slipThreshold * period {
        cycleSlips := ToInt32(cycleSlips + 1);
      }
      unwrapped := unwrapped + ShortestArcDelta(lastWrapped, wrapped, period);
      lastWrapped := w;
      windings := Round((unwrapped - seed) / period);
      return unwrapped;
    }

    method Reset()
      modifies this
      ensures State() == Cleared(old(State())) && !seeded && windings == 0 && cycleSlips == old(cycleSlips)
    {
      unwrapped, lastWrapped, seed, windings, seeded := 0.0, 0.0, 0.0, 0, false;
    }
  }

  /** What a push keeps and counts, w being the representative of the sample in the band: the first seeds the lift, and
      a later one counts a slip if and only if w is more than the threshold share of a period from the last. */
  lemma PushCounts(period: real, threshold: real, s: Cover, sample: real, w: real)
    requires period > 0.0 && InBand(w, period) && Congruent(sample, w, period)
    ensures var s', away := Pushed(period, threshold, s, sample), if w < s.last then s.last - w else w - s.last;
      && s'.seeded && s'.last == w
      && (!s.seeded ==> s'.seed == s'.unwrapped == w && s'.windings == s.windings && s'.slips == s.slips)
      && (s.seeded ==> s'.seed == s.seed
                       && s'.slips == if away > threshold * period then ToInt32(s.slips + 1) else s.slips)
  {
    WrapUnique(sample, w, period);
  }

  datatype Event = Push(sample: real) | Reset

  /** The unwrapper after a history of calls. */
  function After(period: real, threshold: real, events: seq<Event>): Cover
    requires period > 0.0
  {
    if events == [] then UNSEEDED else
      var s := After(period, threshold, events[..|events| - 1]);
      match events[|events| - 1]
      case Push(sample) => Pushed(period, threshold, s, sample)
      case Reset => Cleared(s)
  }

  /** What every history keeps: the lifted angle lies over the last sample, and within half a turn of the
      seed plus the counted windings. */
  ghost predicate Lifted(period: real, s: Cover) {
    s.seeded ==>
      && InBand(s.last, period) && Congruent(s.unwrapped, s.last, period)
      && InBand(s.unwrapped - s.seed - Turns(s.windings, period), period)
  }

  lemma PushLifted(period: real, threshold: real, s: Cover, sample: real)
    requires period > 0.0 && Lifted(period, s) && (!s.seeded ==> s.windings == 0)
    ensures Lifted(period, Pushed(period, threshold, s, sample))
    ensures Congruent(Pushed(period, threshold, s, sample).unwrapped, sample, period)
  {
    var w, m := WrapSymmetric(sample, period), Round(sample / period);
    TurnsAdd(0, m, period);
    if s.seeded {
      var n :| s.unwrapped - s.last == Turns(n, period);
      var k := Round((sample - s.last) / period);
      var u := Pushed(period, threshold, s, sample).unwrapped;
      TurnsAdd(0, k, period);
      TurnsAdd(n, -k, period);
      assert u - sample == Turns(n - k, period);
      TurnsAdd(n - k, m, period);
      assert u - w == Turns(n - k + m, period);
      var gap := WrapSymmetric(u - s.seed, period);
      assert u - s.seed - Turns(Round((u - s.seed) / period), period) == gap;
    } else {
      assert w - w == Turns(0, period);
      assert w - sample == Turns(-m, period);
    }
  }

  lemma {:induction false} AlwaysLifted(period: real, threshold: real, events: seq<Event>)
    requires period > 0.0
    ensures var s := After(period, threshold, events); Lifted(period, s) && (!s.seeded ==> s.windings == 0)
    decreases |events|
  {
    if events != [] {
      var before := events[..|events| - 1];
      AlwaysLifted(period, threshold, before);
      match events[|events| - 1]
      case Push(sample) => PushLifted(period, threshold, After(period, threshold, before), sample);
      case Reset =>
    }
  }

  /** For any input whatever, the value a push returns is congruent to the sample pushed. */
  lemma UnwrappedOverSample(period: real, threshold: real, events: seq<Event>, sample: real)
    requires period > 0.0
    ensures Congruent(Pushed(period, threshold, After(period, threshold, events), sample).unwrapped, sample, period)
  {
    AlwaysLifted(period, threshold, events);
    PushLifted(period, threshold, After(period, threshold, events), sample);
  }

  /** A push follows the true motion if and only if the true step is in [-period/2, period/2). */
  lemma TracksExactly(period: real, threshold: real, s: Cover, from: real, to: real)
    requires period > 0.0 && s.seeded && Congruent(from, s.last, period)
    ensures Pushed(period, threshold, s, to).unwrapped - s.unwrapped == to - from <==> InBand(to - from, period)
  {
    var n :| from - s.last == Turns(n, period);
    assert to - s.last == (to - from) + Turns(n, period);
    WrapShift(to - from, n, period);
    assert Congruent(to - from, to - from, period) by {
      assert (to - from) - (to - from) == Turns(0, period);
    }
    WrapUnique(to - from, to - from, period);
  }

  function Feed(angles: seq<real>): seq<Event> {
    if angles == [] then [] else Feed(angles[..|angles| - 1]) + [Push(angles[|angles| - 1])]
  }

  predicate Slow(period: real, angles: seq<real>) {
    forall i :: 0 < i < |angles| ==> InBand(angles[i] - angles[i - 1], period)
  }

  /** Unwrapping inverts wrapping: samples of a motion whose steps stay within half a turn come back as that
      motion, shifted once and for all by the turns that wrapping took off its first angle. */
  lemma {:induction false} UnwrapsWrapping(period: real, threshold: real, angles: seq<real>)
    requires period > 0.0 && angles != [] && Slow(period, angles)
    ensures var s := After(period, threshold, Feed(angles));
      && s.seeded && s.last == WrapSymmetric(angles[|angles| - 1], period)
      && s.unwrapped == angles[|angles| - 1] - Turns(Round(angles[0] / period), period)
    decreases |angles|
  {
    var before, now := angles[..|angles| - 1], angles[|angles| - 1];
    assert Feed(angles)[..|Feed(angles)| - 1] == Feed(before);
    if before != [] {
      UnwrapsWrapping(period, threshold, before);
      assert angles[|angles| - 1 - 1] == before[|before| - 1];
      TracksExactly(period, threshold, After(period, threshold, Feed(before)), before[|before| - 1], now);
    } else {
      assert After(period, threshold, Feed(before)) == UNSEEDED;
    }
  }

  /** At the default threshold of one half, a push counts a slip if and only if the shorter arc crosses the
      branch cut; the upward half turn, which also crosses it, is not counted. */
  lemma SlipExact(period: real, s: Cover, sample: real)
    requires period > 0.0 && s.seeded && InBand(s.last, period)
    ensures var span := WrapSymmetric(sample, period) - s.last;
      AbsReal(span) > 0.5 * period
      <==> ShortestArcDelta(s.last, sample, period) != span && span != period / 2.0
  {
    var m := Round(sample / period);
    TurnsAdd(0, m, period);
    var span := WrapSymmetric(sample, period) - s.last;
    assert span == (sample - s.last) + Turns(-m, period);
    WrapShift(sample - s.last, -m, period);
    assert Congruent(span, span, period) by {
      assert span - span == Turns(0, period);
    }
    WrapUnique(span, span, period);
  }
}
