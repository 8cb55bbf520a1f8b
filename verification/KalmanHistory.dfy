/** One lane of StatePredictor over its whole life: what holds after any sequence of `ingest` and `reset`. */
module KalmanHistory {
  import opened Vectors
  import opened Kalman
  import opened KalmanUpdate

  datatype Option<T> = None | Some(value: T)

  /** One lane's share of a frame; velocity and acceleration are optional. */
  datatype Sample = Sample(position: real, velocity: Option<real>, acceleration: Option<real>)

  datatype Track = Cold | Tracking(belief: Belief, lastNs: real)

  /** Nanoseconds to seconds. */
  const NS_TO_S := 0.000000001

  /** The time step, in seconds. */
  function Elapsed(last: real, ns: real): (dt: real)
    ensures dt > 0.0 <==> ns > last
    ensures dt >= 0.0 <==> ns >= last
  {
    (ns - last) * NS_TO_S
  }

  function OrZero(z: Option<real>): real {
    match z
    case None => 0.0
    case Some(v) => v
  }

  function Seeded(c: Config, z: Sample): (b: Belief)
    requires c.Valid()
    ensures Sound(c.model, b)
  {
    SeedSound(c, z);
    SeedBelief(c, z)
  }

  function SeedBelief(c: Config, z: Sample): Belief {
    var p0, p2 := c.p0, if c.model.CA? then c.p0 else 0.0;
    Belief(Vec(z.position, OrZero(z.velocity), if c.model.CA? then OrZero(z.acceleration) else 0.0),
           Mat(Vec(p0, 0.0, 0.0), Vec(0.0, p0, 0.0), Vec(0.0, 0.0, p2)))
  }

  lemma SeedSound(c: Config, z: Sample)
    requires c.Valid()
    ensures Sound(c.model, SeedBelief(c, z))
  {
    var b := SeedBelief(c, z);
    forall u ensures Quad(b.p, u) >= 0.0 {
      QuadIsForm(b.p, u);
      DiagonalForm(c.p0, b.p.r2.c, u.a, u.b, u.c);
    }
  }

  lemma DiagonalForm(p: real, p2: real, a: real, b: real, c: real)
    requires p >= 0.0 && p2 >= 0.0
    ensures Form(p, 0.0, 0.0, p, 0.0, p2, a, b, c) >= 0.0
  {
    WeightedSquare(p, a);
    WeightedSquare(p, b);
    WeightedSquare(p2, c);
  }

  /** One measurement update; a component that was not measured, or that the model lacks, is skipped. */
  function Measured(model: Model, b: Belief, i: nat, z: Option<real>, r: real): (b': Belief)
    requires Sound(model, b) && i < 3 && r > 0.0
    ensures Sound(model, b')
  {
    if z.Some? && i < model.Order() then
      UpdatedSound(model, b, i, z.value, r);
      Updated(b, i, z.value, r)
    else b
  }

  /** The measurement updates of one frame: position, then velocity, then acceleration. */
  function Fused(c: Config, b: Belief, z: Sample): (b': Belief)
    requires c.Valid() && Sound(c.model, b)
    ensures Sound(c.model, b')
  {
    var b1 := Measured(c.model, b, 0, Some(z.position), c.rp);
    var b2 := Measured(c.model, b1, 1, z.velocity, c.rv);
    Measured(c.model, b2, 2, z.acceleration, c.ra)
  }

  /** Propagation runs only when time has moved forward. */
  function Advanced(c: Config, b: Belief, dt: real): (b': Belief)
    requires c.Valid() && Sound(c.model, b)
    ensures Sound(c.model, b')
  {
    if dt > 0.0 then PropagatedSound(c, b, dt); Propagated(c, b, dt) else b
  }

  ghost predicate Kept(c: Config, t: Track) {
    t.Tracking? ==> Sound(c.model, t.belief)
  }

  function Ingested(c: Config, t: Track, ns: real, z: Sample): (t': Track)
    requires c.Valid() && Kept(c, t)
    ensures t'.Tracking? && t'.lastNs == ns && Sound(c.model, t'.belief)
  {
    match t
    case Cold => Tracking(Seeded(c, z), ns)
    case Tracking(b, last) => Tracking(Fused(c, Advanced(c, b, Elapsed(last, ns)), z), ns)
  }

  datatype Event = Ingest(ns: real, z: Sample) | Reset

  /** The lane after a history of calls, which keeps a covariance whatever the times and measurements are. */
  function Lived(c: Config, events: seq<Event>): (t: Track)
    requires c.Valid()
    ensures Kept(c, t)
  {
    if events == [] then Cold else
      match events[|events| - 1]
      case Reset => Cold
      case Ingest(ns, z) => Ingested(c, Lived(c, events[..|events| - 1]), ns, z)
  }

  /** Mean and variance that `predictInto` reports for a time. */
  function Predicted(c: Config, t: Track, ns: real): (real, real) {
    match t
    case Cold => (0.0, c.p0)
    case Tracking(b, last) =>
      var ahead := Propagated(c, b, Elapsed(last, ns));
      (ahead.x.a, ahead.p.r0.a)
  }

  /** Every history leaves a symmetric covariance with no negative variance in any direction; hence every
      divisor of the next update is positive and every forward prediction has a non-negative variance. */
  lemma EveryHistory(c: Config, events: seq<Event>, u: Vec, i: nat, r: real, ns: real)
    requires c.Valid() && i < 3 && r > 0.0
    ensures var t := Lived(c, events);
      && (t.Tracking? ==> Symmetric(t.belief.p) && Quad(t.belief.p, u) >= 0.0 && t.belief.p.At(i, i) + r > 0.0)
      && (t.Cold? || ns >= t.lastNs ==> Predicted(c, t, ns).1 >= 0.0)
  {
    var t := Lived(c, events);
    if t.Tracking? {
      InnovationPositive(c.model, t.belief, i, r);
      if ns >= t.lastNs {
        var dt := Elapsed(t.lastNs, ns);
        PropagatedSound(c, t.belief, dt);
        QuadUnit(Propagated(c, t.belief, dt).p, 0);
      }
    }
  }

  /** Predicting over two horizons in turn is predicting over their sum, from any track. */
  lemma PredictionComposes(c: Config, b: Belief, last: real, mid: real, ns: real)
    ensures Predicted(c, Tracking(Propagated(c, b, Elapsed(last, mid)), mid), ns)
         == Predicted(c, Tracking(b, last), ns)
  {
    var s, t := Elapsed(last, mid), Elapsed(mid, ns);
    PropagationComposes(c, b, s, t);
    assert s + t == Elapsed(last, ns);
  }

  // Position confidence

  /** Fusing a position leaves less position variance than the measurement itself has. */
  lemma PositionUpdate(model: Model, b: Belief, z: real, r: real)
    requires Sound(model, b) && r > 0.0
    ensures Measured(model, b, 0, Some(z), r).p.At(0, 0) < r
  {
    InnovationPositive(model, b, 0, r);
    UpdatedAt(b, 0, z, r, 0, 0);
    Share(b.p.At(0, 0), r);
  }

  lemma Share(x: real, r: real)
    requires x >= 0.0 && r > 0.0
    ensures Less(x, x, x, x + r) < r
  {
    var k := x / (x + r);
    assert k * (x + r) == x;
    assert k < 1.0;
    ShareLess(x, r, k);
  }

  lemma ShareLess(x: real, r: real, k: real)
    requires r > 0.0 && k < 1.0 && k * (x + r) == x
    ensures Cut(x, k, x) < r
  {
    assert k * (x + r) == k * x + k * r;
    assert (1.0 - k) * r > 0.0;
  }

  /** No update raises the position variance. */
  lemma OtherUpdate(model: Model, b: Belief, i: nat, z: Option<real>, r: real)
    requires Sound(model, b) && i < 3 && r > 0.0
    ensures Measured(model, b, i, z, r).p.At(0, 0) <= b.p.At(0, 0)
  {
    if z.Some? && i < model.Order() {
      InnovationPositive(model, b, i, r);
      UpdatedAt(b, i, z.value, r, 0, 0);
      AtMirrored(b.p, 0, i);
      SquareOver(b.p.At(0, 0), b.p.At(0, i), b.p.At(i, i) + r);
    }
  }

  lemma SquareOver(p: real, x: real, s: real)
    requires s > 0.0
    ensures Less(p, x, x, s) <= p
  {
    var k := x / s;
    assert x == k * s;
    assert k * x == s * (k * k);
    WeightedSquare(s, k);
  }

  lemma FusedBelow(c: Config, b: Belief, z: Sample)
    requires c.Valid() && Sound(c.model, b)
    ensures Fused(c, b, z).p.At(0, 0) < c.rp
  {
    var b1 := Measured(c.model, b, 0, Some(z.position), c.rp);
    PositionUpdate(c.model, b, z.position, c.rp);
    OtherUpdate(c.model, b1, 1, z.velocity, c.rv);
    OtherUpdate(c.model, Measured(c.model, b1, 1, z.velocity, c.rv), 2, z.acceleration, c.ra);
  }

  /** After any frame but the seeding one the position variance is below the position noise. */
  lemma BelowMeasurementNoise(c: Config, events: seq<Event>, ns: real, z: Sample)
    requires c.Valid() && Lived(c, events).Tracking?
    ensures Ingested(c, Lived(c, events), ns, z).belief.p.At(0, 0) < c.rp
  {
    var t := Lived(c, events);
    FusedBelow(c, Advanced(c, t.belief, Elapsed(t.lastNs, ns)), z);
  }

  // A constant-velocity lane: the further ahead, the less certain

  /** Position variance at horizon dt. */
  function Horizon(p00: real, p01: real, p11: real, q: real, dt: real): real {
    p00 + 2.0 * (dt * p01) + dt * dt * p11 + Q11(q, dt)
  }

  /** Position-velocity covariance at horizon dt. */
  function Tilt(p01: real, p11: real, q: real, dt: real): real {
    p01 + dt * p11 + Q12(q, dt)
  }

  lemma TiltNonNegative(p01: real, p11: real, q: real, dt: real)
    requires p01 >= 0.0 && p11 >= 0.0 && q >= 0.0 && dt >= 0.0
    ensures Tilt(p01, p11, q, dt) >= 0.0
  {
    assert dt * p11 >= 0.0;
    WeightedSquare(q, dt);
  }

  lemma CvPropagated(c: Config, b: Belief, dt: real)
    requires c.model.CV? && Sound(CV, b)
    ensures var p, p' := b.p, Propagated(c, b, dt).p;
      && p'.r0.a == Horizon(p.r0.a, p.r0.b, p.r1.b, c.q, dt)
      && p'.r0.b == Tilt(p.r0.b, p.r1.b, c.q, dt)
  {
    var h := 0.5 * dt * dt;
    ShearedIsSandwich(dt, h, dt, b.p);
    assert b.p.r2 == ZERO && b.p.r0.c == 0.0 && b.p.r1.c == 0.0 && b.p.r1.a == b.p.r0.b;
    CvEntries(dt, h, b.p.r0.a, b.p.r0.b, b.p.r1.b);
  }

  lemma CvEntries(dt: real, h: real, p00: real, p01: real, p11: real)
    ensures Mix(dt, h, Mix(dt, h, p00, p01, 0.0), Mix(dt, h, p01, p11, 0.0), Mix(dt, h, 0.0, 0.0, 0.0))
         == p00 + 2.0 * (dt * p01) + dt * dt * p11
    ensures Lean(dt, Mix(dt, h, p01, p11, 0.0), Mix(dt, h, 0.0, 0.0, 0.0)) == p01 + dt * p11
  {
  }

  lemma ShareNonNegative(x: real, v: real, r: real)
    requires x >= 0.0 && v >= 0.0 && r > 0.0
    ensures Less(x, v, x, v + r) >= 0.0 && Less(x, x, v, v + r) >= 0.0
  {
    var k, l := v / (v + r), x / (v + r);
    assert k * (v + r) == v && l * (v + r) == x;
    assert k <= 1.0 && l >= 0.0;
    CutOfShare(x, k);
    CutOfPart(x, l, v, r);
  }

  lemma CutOfShare(x: real, k: real)
    requires x >= 0.0 && k <= 1.0
    ensures Cut(x, k, x) >= 0.0
  {
    assert (1.0 - k) * x >= 0.0;
  }

  lemma CutOfPart(x: real, l: real, v: real, r: real)
    requires l >= 0.0 && r > 0.0 && l * (v + r) == x
    ensures Cut(x, l, v) >= 0.0
  {
    assert l * (v + r) == l * v + l * r;
    assert l * r >= 0.0;
  }

  /** Position and velocity errors never become anticorrelated. */
  predicate Aligned(b: Belief) {
    b.p.At(0, 1) >= 0.0
  }

  lemma UpdatedAligned(b: Belief, i: nat, z: real, r: real)
    requires i < 2 && Aligned(b) && b.p.At(i, i) >= 0.0 && r > 0.0
    ensures Aligned(Updated(b, i, z, r))
  {
    UpdatedAt(b, i, z, r, 0, 1);
    ShareNonNegative(b.p.At(0, 1), b.p.At(i, i), r);
  }

  lemma MeasuredAligned(model: Model, b: Belief, i: nat, z: Option<real>, r: real)
    requires model.CV? && Sound(model, b) && Aligned(b) && i < 3 && r > 0.0
    ensures Aligned(Measured(model, b, i, z, r))
  {
    if z.Some? && i < 2 {
      InnovationPositive(model, b, i, r);
      UpdatedAligned(b, i, z.value, r);
    }
  }

  lemma AdvancedAligned(c: Config, b: Belief, dt: real)
    requires c.Valid() && c.model.CV? && Sound(c.model, b) && Aligned(b)
    ensures Aligned(Advanced(c, b, dt))
  {
    if dt > 0.0 {
      CvPropagated(c, b, dt);
      QuadUnit(b.p, 1);
      TiltNonNegative(b.p.r0.b, b.p.r1.b, c.q, dt);
    }
  }

  lemma FusedAligned(c: Config, b: Belief, z: Sample)
    requires c.Valid() && c.model.CV? && Sound(c.model, b) && Aligned(b)
    ensures Aligned(Fused(c, b, z))
  {
    var b1 := Measured(c.model, b, 0, Some(z.position), c.rp);
    MeasuredAligned(c.model, b, 0, Some(z.position), c.rp);
    MeasuredAligned(c.model, b1, 1, z.velocity, c.rv);
    MeasuredAligned(c.model, Measured(c.model, b1, 1, z.velocity, c.rv), 2, z.acceleration, c.ra);
  }

  lemma FollowedAligned(c: Config, b: Belief, dt: real, z: Sample)
    requires c.Valid() && c.model.CV? && Sound(c.model, b) && Aligned(b)
    ensures Aligned(Fused(c, Advanced(c, b, dt), z))
  {
    AdvancedAligned(c, b, dt);
    FusedAligned(c, Advanced(c, b, dt), z);
  }

  lemma IngestedAligned(c: Config, t: Track, ns: real, z: Sample)
    requires c.Valid() && c.model.CV? && Kept(c, t) && (t.Tracking? ==> Aligned(t.belief))
    ensures Aligned(Ingested(c, t, ns, z).belief)
  {
    if t.Tracking? {
      FollowedAligned(c, t.belief, Elapsed(t.lastNs, ns), z);
    }
  }

  lemma {:induction false} AlwaysAligned(c: Config, events: seq<Event>)
    requires c.Valid() && c.model.CV?
    ensures var t := Lived(c, events); t.Tracking? ==> Aligned(t.belief)
    decreases |events|
  {
    if events != [] && events[|events| - 1].Ingest? {
      var e := events[|events| - 1];
      AlwaysAligned(c, events[..|events| - 1]);
      IngestedAligned(c, Lived(c, events[..|events| - 1]), e.ns, e.z);
    }
  }

  /** The variance that `predictInto` reports never falls as the horizon lengthens, after any history. */
  lemma LaterIsLessCertain(c: Config, events: seq<Event>, ns: real, later: real)
    requires c.Valid() && c.model.CV?
    requires var t := Lived(c, events); t.Tracking? ==> t.lastNs <= ns
    requires ns <= later
    ensures Predicted(c, Lived(c, events), ns).1 <= Predicted(c, Lived(c, events), later).1
  {
    var t := Lived(c, events);
    if t.Tracking? {
      AlwaysAligned(c, events);
      var s, dt := Elapsed(t.lastNs, ns), Elapsed(t.lastNs, later);
      CvPropagated(c, t.belief, s);
      CvPropagated(c, t.belief, dt);
      QuadUnit(t.belief.p, 1);
      Growing(s, dt, t.belief.p.r0.a, t.belief.p.r0.b, t.belief.p.r1.b, c.q);
    }
  }

  lemma Growing(s: real, t: real, now: real, slope: real, curve: real, q: real)
    requires 0.0 <= s <= t && slope >= 0.0 && curve >= 0.0 && q >= 0.0
    ensures Horizon(now, slope, curve, q, s) <= Horizon(now, slope, curve, q, t)
  {
    assert s * slope <= t * slope;
    assert s * s <= t * t;
    assert s * s * curve <= t * t * curve;
    Cubes(s, t);
    assert q * (s * s * s) <= q * (t * t * t);
  }

  lemma Cubes(s: real, t: real)
    requires 0.0 <= s <= t
    ensures s * s * s <= t * t * t
  {
    assert s * s <= t * t;
    assert s * s * s <= t * t * s;
    assert t * t * s <= t * t * t;
  }
}
