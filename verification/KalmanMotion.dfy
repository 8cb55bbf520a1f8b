/** What `ingest` and `predictInto` come to, in numbers: kinematics, weights and times written out. */
module KalmanMotion {
  import opened Vectors
  import opened Kalman
  import opened KalmanUpdate
  import opened KalmanHistory
  import Frames = KalmanFrames

  function Seconds(last: real, ns: real): real {
    (ns - last) / 1000000000.0
  }

  /** Position and velocity dt seconds later, at constant acceleration. */
  function Position(x: real, v: real, a: real, dt: real): real { x + dt * v + 0.5 * dt * dt * a }
  function Velocity(v: real, a: real, dt: real): real { v + dt * a }

  function Later(x: Vec, dt: real): Vec {
    Vec(Position(x.a, x.b, x.c, dt), Velocity(x.b, x.c, dt), x.c)
  }

  lemma Kinematics(x: Vec, dt: real)
    ensures Apply(Transition(dt), x) == Later(x, dt)
  {
  }

  lemma PositionTwice(x: real, v: real, a: real, s: real, t: real)
    ensures Position(Position(x, v, a, s), Velocity(v, a, s), a, t) == Position(x, v, a, s + t)
    ensures Velocity(Velocity(v, a, s), a, t) == Velocity(v, a, s + t)
  {
  }

  lemma LaterTwice(x: Vec, s: real, t: real)
    ensures Later(Later(x, s), t) == Later(x, s + t)
  {
    PositionTwice(x.a, x.b, x.c, s, t);
  }

  // Predictions

  /** Position variance dt seconds on, of a lane whose velocity is disturbed by noise of density q. */
  function SpreadCV(p00: real, p01: real, p11: real, q: real, dt: real): real {
    p00 + 2.0 * (dt * p01) + dt * dt * p11 + q * (dt * dt * dt) / 3.0
  }

  /** The same of a lane whose acceleration is disturbed. */
  function SpreadCA(p00: real, p01: real, p02: real, p11: real, p12: real, p22: real, q: real, dt: real): real {
    p00 + 2.0 * (dt * p01) + dt * dt * (p11 + p02) + dt * dt * dt * p12 + dt * dt * dt * dt * p22 / 4.0
    + q * (dt * dt * dt * dt * dt) / 20.0
  }

  function Spread(model: Model, p: Mat, q: real, dt: real): real {
    match model
    case CV => SpreadCV(p.r0.a, p.r0.b, p.r1.b, q, dt)
    case CA => SpreadCA(p.r0.a, p.r0.b, p.r0.c, p.r1.b, p.r1.c, p.r2.c, q, dt)
  }

  lemma CvEntry(dt: real, h: real, p00: real, p01: real, p11: real, q: real)
    ensures Mix(dt, h, Mix(dt, h, p00, p01, 0.0), Mix(dt, h, p01, p11, 0.0), Mix(dt, h, 0.0, 0.0, 0.0)) + Q11(q, dt)
         == SpreadCV(p00, p01, p11, q, dt)
  {
  }

  lemma CaEntry(dt: real, h: real, p00: real, p01: real, p02: real, p11: real, p12: real, p22: real, q: real)
    requires h == 0.5 * dt * dt
    ensures Mix(dt, h, Mix(dt, h, p00, p01, p02), Mix(dt, h, p01, p11, p12), Mix(dt, h, p02, p12, p22)) + Q00(q, dt)
         == SpreadCA(p00, p01, p02, p11, p12, p22, q, dt)
  {
  }

  function Mixed(p: Mat, dt: real, h: real): real {
    Mix(dt, h, Mix(dt, h, p.r0.a, p.r0.b, p.r0.c), Mix(dt, h, p.r0.b, p.r1.b, p.r1.c),
        Mix(dt, h, p.r0.c, p.r1.c, p.r2.c))
  }

  lemma FirstEntry(f: Mat, h: real, dt: real, p: Mat)
    requires f == Shear(dt, h, dt) && Symmetric(p)
    ensures Sandwich(f, p).r0.a == Mixed(p, dt, h)
  {
    ShearedIsSandwich(dt, h, dt, p);
    assert p.r1.a == p.r0.b && p.r2.a == p.r0.c && p.r2.b == p.r1.c;
  }

  lemma AddsNoise(c: Config, b: Belief, dt: real)
    ensures Propagated(c, b, dt).p.r0.a
         == Sandwich(Transition(dt), b.p).r0.a + if c.model.CV? then Q11(c.q, dt) else Q00(c.q, dt)
  {
  }

  lemma MixedIsSpread(model: Model, p: Mat, q: real, dt: real, h: real)
    requires h == 0.5 * dt * dt && (model.CV? ==> p.r0.c == p.r1.c == p.r2.c == 0.0)
    ensures Mixed(p, dt, h) + (if model.CV? then Q11(q, dt) else Q00(q, dt)) == Spread(model, p, q, dt)
  {
    match model
    case CV => CvEntry(dt, h, p.r0.a, p.r0.b, p.r1.b, q);
    case CA => CaEntry(dt, h, p.r0.a, p.r0.b, p.r0.c, p.r1.b, p.r1.c, p.r2.c, q);
  }

  lemma ThirdZero(model: Model, b: Belief)
    requires Padded(model, b) && model.CV?
    ensures b.p.r0.c == b.p.r1.c == b.p.r2.c == 0.0
  {
    assert b.p.Col(2).a == 0.0 && b.p.Col(2).b == 0.0 && b.p.Col(2).c == 0.0;
  }

  lemma VarianceAhead(c: Config, b: Belief, dt: real)
    requires Padded(c.model, b) && Symmetric(b.p)
    ensures Propagated(c, b, dt).p.r0.a == Spread(c.model, b.p, c.q, dt)
  {
    var h := 0.5 * dt * dt;
    AddsNoise(c, b, dt);
    FirstEntry(Transition(dt), h, dt, b.p);
    if c.model.CV? {
      ThirdZero(c.model, b);
    }
    MixedIsSpread(c.model, b.p, c.q, dt, h);
  }

  /** The value reported for any time is the position that the lane's mean motion has then, and the variance that of
      the position. */
  lemma PredictionIs(c: Config, b: Belief, last: real, ns: real)
    requires c.Valid() && Sound(c.model, b)
    ensures Predicted(c, Tracking(b, last), ns)
         == (Position(b.x.a, b.x.b, b.x.c, Seconds(last, ns)), Spread(c.model, b.p, c.q, Seconds(last, ns)))
  {
    var dt := Elapsed(last, ns);
    assert dt == Seconds(last, ns);
    Kinematics(b.x, dt);
    VarianceAhead(c, b, dt);
  }

  /** At the time of the last frame that is the filter's own position. */
  lemma PredictionNow(c: Config, b: Belief, last: real)
    requires c.Valid() && Sound(c.model, b)
    ensures Predicted(c, Tracking(b, last), last) == (b.x.a, b.p.r0.a)
  {
    PredictionIs(c, b, last, last);
    assert Seconds(last, last) == 0.0;
  }

  // Seeding

  /** The first frame is taken as it is, every component with variance p0 and no correlation. */
  lemma SeedIs(c: Config, ns: real, z: Sample, u: Vec)
    requires c.Valid()
    ensures var b := Ingested(c, Cold, ns, z).belief;
      && b.x.a == z.position && (z.velocity.Some? ==> b.x.b == z.velocity.value) && (z.velocity.None? ==> b.x.b == 0.0)
      && (c.model.CA? && z.acceleration.Some? ==> b.x.c == z.acceleration.value)
      && (c.model.CV? || z.acceleration.None? ==> b.x.c == 0.0)
      && Quad(b.p, u) == c.p0 * (u.a * u.a + u.b * u.b + if c.model.CA? then u.c * u.c else 0.0)
  {
    var b := Ingested(c, Cold, ns, z).belief;
    QuadIsForm(b.p, u);
    Distribute(c.p0, u.a * u.a, u.b * u.b, if c.model.CA? then u.c * u.c else 0.0);
  }

  lemma SeedPredicts(c: Config, ns: real, z: Sample)
    requires c.Valid()
    ensures Predicted(c, Ingested(c, Cold, ns, z), ns) == (z.position, c.p0)
  {
    PredictionNow(c, Ingested(c, Cold, ns, z).belief, ns);
  }

  // One frame

  /** What the lane would be at the time of the frame. Propagation runs only when time has moved forward. */
  function Prior(c: Config, b: Belief, last: real, ns: real): Belief {
    if ns > last then Propagated(c, b, Seconds(last, ns)) else b
  }

  lemma IngestedIs(c: Config, b: Belief, last: real, ns: real, z: Sample)
    requires c.Valid() && Sound(c.model, b)
    ensures Sound(c.model, Prior(c, b, last, ns))
    ensures Ingested(c, Tracking(b, last), ns, z) == Tracking(Fused(c, Prior(c, b, last, ns), z), ns)
  {
    assert Elapsed(last, ns) == Seconds(last, ns);
    if ns > last {
      PropagatedSound(c, b, Seconds(last, ns));
    }
  }

  /** `ingest` leaves the best linear estimate, in every direction, that can be had from what the lane would be at that
      time and the whole frame. */
  lemma IngestIsJoint(c: Config, b: Belief, last: real, ns: real, z: Sample, u: Vec) returns (ks: seq<real>)
    requires c.Valid() && Sound(c.model, b)
    ensures var prior, rs := Prior(c, b, last, ns), Frames.FrameOf(c, z);
      var b' := Ingested(c, Tracking(b, last), ns, z).belief;
      && |ks| == |rs| && Frames.Apt(c.model, rs)
      && Quad(b'.p, u) == Frames.Variance(prior, u, rs, ks) && Dot(u, b'.x) == Frames.Estimate(prior, u, rs, ks)
      && forall ls: seq<real> :: |ls| == |rs| ==> Frames.Variance(prior, u, rs, ks) <= Frames.Variance(prior, u, rs, ls)
  {
    IngestedIs(c, b, last, ns, z);
    ks := Frames.FrameIsJoint(c, Prior(c, b, last, ns), z, u);
  }

  function Average(v: real, s: real, z: real, r: real): real
    requires s + r != 0.0
  {
    (v * r + z * s) / (s + r)
  }

  function Combined(s: real, r: real): real
    requires s + r != 0.0
  {
    s * r / (s + r)
  }

  lemma WeighedMean(v: real, s: real, z: real, r: real)
    requires s >= 0.0 && r > 0.0
    ensures Less(v, s, v - z, s + r) == Average(v, s, z, r)
    ensures Less(s, s, s, s + r) == Combined(s, r)
  {
    var k := s / (s + r);
    assert k * (s + r) == s;
    assert (v - k * (v - z)) * (s + r) == v * r + z * s;
    assert (s - k * s) * (s + r) == s * r;
  }

  /** A frame that measures the position only leaves the average of the reading and of what `predictInto` would have
      reported for that time, each weighted with the other's variance; a frame that is not newer counts for the time of
      the last one. */
  lemma PositionFrame(c: Config, b: Belief, last: real, ns: real, z: Sample)
    requires c.Valid() && Sound(c.model, b) && z.velocity.None? && z.acceleration.None?
    ensures var p := Predicted(c, Tracking(b, last), if ns > last then ns else last);
      var b' := Ingested(c, Tracking(b, last), ns, z).belief;
      p.1 >= 0.0 && b'.x.a == Average(p.0, p.1, z.position, c.rp) && b'.p.r0.a == Combined(p.1, c.rp)
  {
    var prior := Prior(c, b, last, ns);
    IngestedIs(c, b, last, ns, z);
    PriorPredicts(c, b, last, ns);
    PositionUpdated(c, prior, z);
  }

  lemma PriorPredicts(c: Config, b: Belief, last: real, ns: real)
    requires c.Valid() && Sound(c.model, b)
    ensures var prior := Prior(c, b, last, ns);
      Predicted(c, Tracking(b, last), if ns > last then ns else last) == (prior.x.a, prior.p.r0.a)
  {
    PredictionNow(c, b, last);
    assert Elapsed(last, ns) == Seconds(last, ns);
  }

  lemma MeanUpdated(b: Belief, z: real, r: real)
    requires b.p.At(0, 0) >= 0.0 && r > 0.0
    ensures Updated(b, 0, z, r).x.At(0) == Average(b.x.At(0), b.p.At(0, 0), z, r)
  {
    UpdatedMeanAt(b, 0, z, r, 0);
    WeighedMean(b.x.At(0), b.p.At(0, 0), z, r);
  }

  lemma VarianceUpdated(b: Belief, z: real, r: real)
    requires b.p.At(0, 0) >= 0.0 && r > 0.0
    ensures Updated(b, 0, z, r).p.At(0, 0) == Combined(b.p.At(0, 0), r)
  {
    UpdatedAt(b, 0, z, r, 0, 0);
    WeighedMean(b.x.At(0), b.p.At(0, 0), z, r);
  }

  lemma PositionUpdated(c: Config, b: Belief, z: Sample)
    requires c.Valid() && Sound(c.model, b) && z.velocity.None? && z.acceleration.None?
    ensures b.p.At(0, 0) >= 0.0 && b.p.At(0, 0) + c.rp != 0.0
    ensures Fused(c, b, z).x.At(0) == Average(b.x.At(0), b.p.At(0, 0), z.position, c.rp)
    ensures Fused(c, b, z).p.At(0, 0) == Combined(b.p.At(0, 0), c.rp)
  {
    QuadUnit(b.p, 0);
    MeanUpdated(b, z.position, c.rp);
    VarianceUpdated(b, z.position, c.rp);
    assert Fused(c, b, z) == Updated(b, 0, z.position, c.rp);
  }

  // Exact motions

  /** The frame is what a body in state x shows. */
  predicate Shows(model: Model, x: Vec, z: Sample) {
    && z.position == x.a && (z.velocity.Some? ==> z.velocity.value == x.b)
    && (model.CA? && z.acceleration.Some? ==> z.acceleration.value == x.c)
  }

  lemma NotMoved(x: Vec, y: real, g: Vec)
    requires y == 0.0
    ensures Plus(x, Scale(y, g)) == x
  {
  }

  lemma NoSurprise(model: Model, b: Belief, i: nat, z: Option<real>, r: real)
    requires Sound(model, b) && i < 3 && r > 0.0 && (z.Some? && i < model.Order() ==> z.value == b.x.At(i))
    ensures Measured(model, b, i, z, r).x == b.x
  {
    if z.Some? && i < model.Order() {
      InnovationPositive(model, b, i, r);
      NotMoved(b.x, z.value - b.x.At(i), Over(b.p.Col(i), b.p.At(i, i) + r));
    }
  }

  lemma FrameAgrees(c: Config, b: Belief, z: Sample)
    requires c.Valid() && Sound(c.model, b) && Shows(c.model, b.x, z)
    ensures Fused(c, b, z).x == b.x
  {
    var b1 := Measured(c.model, b, 0, Some(z.position), c.rp);
    var b2 := Measured(c.model, b1, 1, z.velocity, c.rv);
    NoSurprise(c.model, b, 0, Some(z.position), c.rp);
    NoSurprise(c.model, b1, 1, z.velocity, c.rv);
    NoSurprise(c.model, b2, 2, z.acceleration, c.ra);
  }

  /** A body in state x at time `start`, of constant acceleration, or of constant velocity for that model. */
  datatype Motion = Motion(x: Vec, start: real) {
    function At(ns: real): Vec { Later(x, Seconds(start, ns)) }
  }

  lemma MovesOn(m: Motion, last: real, ns: real)
    ensures Later(m.At(last), Seconds(last, ns)) == m.At(ns)
  {
    LaterTwice(m.x, Seconds(m.start, last), Seconds(last, ns));
    assert Seconds(m.start, last) + Seconds(last, ns) == Seconds(m.start, ns);
  }

  lemma PriorOnMotion(c: Config, b: Belief, last: real, ns: real, m: Motion)
    requires b.x == m.At(last) && last <= ns
    ensures Prior(c, b, last, ns).x == m.At(ns)
  {
    Kinematics(b.x, Seconds(last, ns));
    MovesOn(m, last, ns);
  }

  lemma StaysOnMotion(c: Config, b: Belief, last: real, ns: real, z: Sample, m: Motion)
    requires c.Valid() && Sound(c.model, b) && b.x == m.At(last) && last <= ns && Shows(c.model, m.At(ns), z)
    ensures Ingested(c, Tracking(b, last), ns, z).belief.x == m.At(ns)
  {
    IngestedIs(c, b, last, ns, z);
    PriorOnMotion(c, b, last, ns, m);
    FrameAgrees(c, Prior(c, b, last, ns), z);
  }

  /** Frames of the motion, at times that never run backwards. */
  predicate Follows(c: Config, events: seq<Event>, m: Motion) {
    forall i :: 0 <= i < |events| ==>
      && events[i].Ingest? && Shows(c.model, m.At(events[i].ns), events[i].z)
      && (i > 0 ==> events[i - 1].Ingest? && events[i - 1].ns <= events[i].ns)
  }

  /** The first frame shows the whole state. */
  predicate Begins(c: Config, z: Sample, m: Motion) {
    z.velocity.Some? && if c.model.CA? then z.acceleration.Some? else m.x.c == 0.0
  }

  /** A filter that starts on an exact motion stays on it at every later frame, whichever components the frames have,
      and between frames and after them it predicts it. */
  lemma {:induction false} TracksMotion(c: Config, events: seq<Event>, m: Motion, ns: real)
    requires c.Valid() && events != [] && Follows(c, events, m) && Begins(c, events[0].z, m)
    ensures var t, last := Lived(c, events), events[|events| - 1].ns;
      t.Tracking? && t.lastNs == last && t.belief.x == m.At(last) && Predicted(c, t, ns).0 == m.At(ns).a
    decreases |events|
  {
    var before, e := events[..|events| - 1], events[|events| - 1];
    if before != [] {
      TracksMotion(c, before, m, ns);
      var t := Lived(c, before);
      StaysOnMotion(c, t.belief, t.lastNs, e.ns, e.z, m);
    } else {
      assert Lived(c, before) == Cold;
    }
    var t := Lived(c, events);
    PredictionIs(c, t.belief, e.ns, ns);
    MovesOn(m, e.ns, ns);
  }
}
