/** A whole frame of measurements. Fusing any number of scalar readings one after the other is their joint update:
    in every direction it yields the linear estimate from all of them together that has the least error variance.
    The order does not matter. */
module KalmanFrames {
  import opened Folds
  import opened Vectors
  import opened Kalman
  import opened KalmanUpdate
  import opened KalmanJoint
  import opened KalmanHistory

  /** Readings the model has components for, each with some noise. */
  predicate Apt(model: Model, rs: seq<Reading>) {
    forall i :: 0 <= i < |rs| ==> rs[i].i < model.Order() && rs[i].r > 0.0
  }

  /** One more reading. */
  ghost function Take(model: Model, b: Belief, m: Reading): Belief {
    if Sound(model, b) && m.i < model.Order() && m.r > 0.0 && Spread(b, m) != 0.0 then Fuse(b, m) else b
  }

  /** Fuse the readings one after the other. */
  ghost function FuseAll(model: Model, b: Belief, rs: seq<Reading>): Belief {
    Fold(Taking(model), b, rs)
  }

  ghost function Taking(model: Model): (Belief, Reading) -> Belief {
    (b, m) => Take(model, b, m)
  }

  ghost predicate IsFused(model: Model, b: Belief, m: Reading, b1: Belief) {
    Sound(model, b) && m.i < model.Order() && m.r > 0.0 && Spread(b, m) != 0.0 && b1 == Fuse(b, m)
  }

  lemma Taken(model: Model, b: Belief, m: Reading)
    requires Sound(model, b) && m.i < model.Order() && m.r > 0.0
    ensures Sound(model, Take(model, b, m)) && IsFused(model, b, m, Take(model, b, m))
  {
    UpdatedSound(model, b, m.i, m.z, m.r);
  }

  /** The beliefs after the first reading and after all of them. */
  lemma AfterFirst(model: Model, b: Belief, rs: seq<Reading>) returns (b1: Belief, b': Belief)
    requires Sound(model, b) && Apt(model, rs) && rs != []
    ensures IsFused(model, b, rs[0], b1) && Sound(model, b1)
    ensures b' == FuseAll(model, b, rs) == FuseAll(model, b1, rs[1..])
  {
    b1, b' := Take(model, b, rs[0]), FuseAll(model, b, rs);
    Taken(model, b, rs[0]);
  }

  // Linear estimates of the component along u: reading k enters with weight ks[k], and the prior mean with what the
  // weights leave of u.

  function Rest(u: Vec, rs: seq<Reading>, ks: seq<real>): Vec
    requires |ks| == |rs| && forall i :: 0 <= i < |rs| ==> rs[i].i < 3
  {
    if rs == [] then u else Shifted(Rest(u, rs[1..], ks[1..]), rs[0].i, -ks[0])
  }

  function Weighted(k: real, x: real): real { k * x }

  function Heard(rs: seq<Reading>, ks: seq<real>): real
    requires |ks| == |rs|
  {
    if rs == [] then 0.0 else Weighted(ks[0], rs[0].z) + Heard(rs[1..], ks[1..])
  }

  function Noise(rs: seq<Reading>, ks: seq<real>): real
    requires |ks| == |rs|
  {
    if rs == [] then 0.0 else Weighted(ks[0] * ks[0], rs[0].r) + Noise(rs[1..], ks[1..])
  }

  function Estimate(b: Belief, u: Vec, rs: seq<Reading>, ks: seq<real>): real
    requires |ks| == |rs| && forall i :: 0 <= i < |rs| ==> rs[i].i < 3
  {
    Dot(Rest(u, rs, ks), b.x) + Heard(rs, ks)
  }

  /** Its error variance, the readings' errors being independent of the prior's and of each other. */
  function Variance(b: Belief, u: Vec, rs: seq<Reading>, ks: seq<real>): real
    requires |ks| == |rs| && forall i :: 0 <= i < |rs| ==> rs[i].i < 3
  {
    Quad(b.p, Rest(u, rs, ks)) + Noise(rs, ks)
  }

  lemma FirstWeight(b: Belief, u: Vec, rs: seq<Reading>, ks: seq<real>)
    requires |ks| == |rs| > 0 && forall i :: 0 <= i < |rs| ==> rs[i].i < 3
    ensures var rest, m, k := Rest(u, rs[1..], ks[1..]), rs[0], ks[0];
      && Variance(b, u, rs, ks)
         == Quad(b.p, Shifted(rest, m.i, -k)) + Weighted(k * k, m.r) + Noise(rs[1..], ks[1..])
      && Estimate(b, u, rs, ks) == Dot(Shifted(rest, m.i, -k), b.x) + Weighted(k, m.z) + Heard(rs[1..], ks[1..])
  {
  }

  // One reading

  lemma NoiseLine(q: real, k: real, d: real, x: real, r: real)
    ensures Line(q, -k, d, x) + Weighted(k * k, r) == Line(q, -k, d, x + r)
  {
  }

  /** Along v, weight k on the reading: never less variance than the update leaves. */
  lemma WeightCosts(model: Model, b: Belief, m: Reading, v: Vec, k: real)
    requires Sound(model, b) && m.i < model.Order() && m.r > 0.0
    ensures b.p.At(m.i, m.i) + m.r > 0.0
    ensures Quad(Fuse(b, m).p, v) <= Quad(b.p, Shifted(v, m.i, -k)) + Weighted(k * k, m.r)
  {
    InnovationPositive(model, b, m.i, m.r);
    var d, s := Dot(b.p.Row(m.i), v), b.p.At(m.i, m.i) + m.r;
    UpdatedQuad(b, m.i, m.z, m.r, v);
    QuadLine(b.p, v, m.i, -k);
    NoiseLine(Quad(b.p, v), k, d, b.p.At(m.i, m.i), m.r);
    CompleteSquare(Quad(b.p, v), s, d, k);
  }

  /** The update's own weight along v attains it, and moves the mean accordingly. */
  lemma WeightAttains(model: Model, b: Belief, m: Reading, v: Vec) returns (k: real)
    requires Sound(model, b) && m.i < model.Order() && m.r > 0.0
    ensures b.p.At(m.i, m.i) + m.r > 0.0
    ensures Quad(Fuse(b, m).p, v) == Quad(b.p, Shifted(v, m.i, -k)) + Weighted(k * k, m.r)
    ensures Dot(v, Fuse(b, m).x) == Dot(Shifted(v, m.i, -k), b.x) + Weighted(k, m.z)
  {
    InnovationPositive(model, b, m.i, m.r);
    var d, s := Dot(b.p.Row(m.i), v), b.p.At(m.i, m.i) + m.r;
    k := d / s;
    UpdatedQuad(b, m.i, m.z, m.r, v);
    QuadLine(b.p, v, m.i, -k);
    NoiseLine(Quad(b.p, v), k, d, b.p.At(m.i, m.i), m.r);
    MeanMoves(b, m, v, k);
  }

  lemma MeanMoves(b: Belief, m: Reading, v: Vec, k: real)
    requires m.i < 3 && Symmetric(b.p) && b.p.At(m.i, m.i) + m.r != 0.0
    requires k == Dot(b.p.Row(m.i), v) / (b.p.At(m.i, m.i) + m.r)
    ensures Dot(v, Fuse(b, m).x) == Dot(Shifted(v, m.i, -k), b.x) + Weighted(k, m.z)
  {
    var s, y := b.p.At(m.i, m.i) + m.r, m.z - b.x.At(m.i);
    var gain := Over(b.p.Col(m.i), s);
    GainAlong(b.p, m.i, s, v);
    DotMoved(v, b.x, y, gain);
    DotShifted(v, m.i, k, b.x);
    Innovation(Dot(v, b.x), k, m.z, b.x.At(m.i));
  }

  lemma GainAlong(p: Mat, i: nat, s: real, v: Vec)
    requires i < 3 && Symmetric(p) && s != 0.0
    ensures Dot(v, Over(p.Col(i), s)) == Dot(p.Row(i), v) / s
  {
    BestGain(p, i, s, v);
    DotCommutes(v, Over(p.Col(i), s));
  }

  lemma DotMoved(v: Vec, x: Vec, y: real, g: Vec)
    ensures Dot(v, Plus(x, Scale(y, g))) == Dot(v, x) + y * Dot(v, g)
  {
    DotLinear(v, y, x, Scale(y, g));
    DotLinear(v, y, g, g);
  }

  lemma DotShifted(v: Vec, i: nat, k: real, x: Vec)
    requires i < 3
    ensures Dot(Shifted(v, i, -k), x) == Dot(v, x) - Weighted(k, x.At(i))
  {
  }

  lemma Innovation(d: real, k: real, z: real, x: real)
    ensures d + (z - x) * k == d - Weighted(k, x) + Weighted(k, z)
  {
  }

  // All readings

  lemma CostsMore(model: Model, b: Belief, b1: Belief, rs: seq<Reading>, u: Vec, ks: seq<real>, q: real)
    requires |ks| == |rs| > 0 && Apt(model, rs) && IsFused(model, b, rs[0], b1)
    requires q <= Variance(b1, u, rs[1..], ks[1..])
    ensures q <= Variance(b, u, rs, ks)
  {
    var v := Rest(u, rs[1..], ks[1..]);
    FirstWeight(b, u, rs, ks);
    var before, after := Quad(b.p, Shifted(v, rs[0].i, -ks[0])), Quad(b1.p, v);
    var w := Weighted(ks[0] * ks[0], rs[0].r);
    assert after <= before + w by {
      WeightCosts(model, b, rs[0], v, ks[0]);
    }
  }

  /** No weights leave less variance, in any direction, than fusing the readings in turn. */
  lemma {:induction false} NoneBetter(model: Model, b: Belief, rs: seq<Reading>, u: Vec, ks: seq<real>)
    requires Sound(model, b) && Apt(model, rs) && |ks| == |rs|
    ensures Quad(FuseAll(model, b, rs).p, u) <= Variance(b, u, rs, ks)
    decreases |rs|
  {
    if rs != [] {
      var b1, b' := AfterFirst(model, b, rs);
      NoneBetter(model, b1, rs[1..], u, ks[1..]);
      CostsMore(model, b, b1, rs, u, ks, Quad(b'.p, u));
    }
  }

  lemma AttainsOneMore(model: Model, b: Belief, b1: Belief, rs: seq<Reading>, u: Vec, more: seq<real>, q: real, x: real)
    returns (ks: seq<real>)
    requires |more| + 1 == |rs| && Apt(model, rs) && IsFused(model, b, rs[0], b1)
    requires q == Variance(b1, u, rs[1..], more) && x == Estimate(b1, u, rs[1..], more)
    ensures |ks| == |rs| && q == Variance(b, u, rs, ks) && x == Estimate(b, u, rs, ks)
  {
    var v := Rest(u, rs[1..], more);
    var k := Attains(model, b, b1, rs[0], v);
    ks := [k] + more;
    assert ks[1..] == more;
    FirstWeight(b, u, rs, ks);
    AddUp(Quad(b1.p, v), Quad(b.p, Shifted(v, rs[0].i, -k)), Weighted(k * k, rs[0].r), Noise(rs[1..], more));
    AddUp(Dot(v, b1.x), Dot(Shifted(v, rs[0].i, -k), b.x), Weighted(k, rs[0].z), Heard(rs[1..], more));
  }

  lemma AddUp(a: real, b: real, w: real, n: real)
    requires a == b + w
    ensures a + n == b + w + n
  {
  }

  lemma Attains(model: Model, b: Belief, b1: Belief, m: Reading, v: Vec) returns (k: real)
    requires IsFused(model, b, m, b1)
    ensures Quad(b1.p, v) == Quad(b.p, Shifted(v, m.i, -k)) + Weighted(k * k, m.r)
    ensures Dot(v, b1.x) == Dot(Shifted(v, m.i, -k), b.x) + Weighted(k, m.z)
  {
    k := WeightAttains(model, b, m, v);
  }

  lemma {:induction false} Attained(model: Model, b: Belief, rs: seq<Reading>, u: Vec) returns (ks: seq<real>)
    requires Sound(model, b) && Apt(model, rs)
    ensures |ks| == |rs|
    ensures Quad(FuseAll(model, b, rs).p, u) == Variance(b, u, rs, ks)
    ensures Dot(u, FuseAll(model, b, rs).x) == Estimate(b, u, rs, ks)
    decreases |rs|
  {
    if rs == [] {
      ks := [];
    } else {
      var b1, b' := AfterFirst(model, b, rs);
      var more := Attained(model, b1, rs[1..], u);
      ks := AttainsOneMore(model, b, b1, rs, u, more, Quad(b'.p, u), Dot(u, b'.x));
    }
  }

  /** Some weights attain it and give its mean: the outcome is the best linear estimate from all readings together. */
  lemma {:induction false} JointEstimate(model: Model, b: Belief, rs: seq<Reading>, u: Vec) returns (ks: seq<real>)
    requires Sound(model, b) && Apt(model, rs)
    ensures |ks| == |rs|
    ensures Quad(FuseAll(model, b, rs).p, u) == Variance(b, u, rs, ks)
    ensures Dot(u, FuseAll(model, b, rs).x) == Estimate(b, u, rs, ks)
    ensures forall ls: seq<real> :: |ls| == |rs| ==> Variance(b, u, rs, ks) <= Variance(b, u, rs, ls)
  {
    ks := Attained(model, b, rs, u);
    var q := Variance(b, u, rs, ks);
    forall ls: seq<real> | |ls| == |rs| ensures q <= Variance(b, u, rs, ls) {
      NoneBetter(model, b, rs, u, ls);
    }
  }

  // Any order

  lemma {:induction false} TakesSwap(model: Model, b: Belief, m: Reading, n: Reading)
    requires Sound(model, b) && m.i < model.Order() && m.r > 0.0 && n.i < model.Order() && n.r > 0.0
    ensures Take(model, Take(model, b, m), n) == Take(model, Take(model, b, n), m)
  {
    Taken(model, b, m);
    Taken(model, b, n);
    Taken(model, Take(model, b, m), n);
    Taken(model, Take(model, b, n), m);
    OrderIrrelevant(model, b, m, n);
  }

  /** The readings of a frame can be fused in any order. */
  lemma {:induction false} ReadingsInAnyOrder(model: Model, b: Belief, rs: seq<Reading>, ts: seq<Reading>)
    requires Sound(model, b) && Apt(model, rs) && multiset(rs) == multiset(ts)
    ensures FuseAll(model, b, rs) == FuseAll(model, b, ts)
  {
    var f, ok, good := Taking(model), b => Sound(model, b), (m: Reading) => m.i < model.Order() && m.r > 0.0;
    forall b, m | ok(b) && good(m) ensures ok(f(b, m)) {
      Taken(model, b, m);
    }
    forall b, m, n | ok(b) && good(m) && good(n) ensures f(f(b, m), n) == f(f(b, n), m) {
      TakesSwap(model, b, m, n);
    }
    AnyOrder(f, ok, good, b, rs, ts);
  }

  // The frames of `ingest`

  function Optional(model: Model, i: nat, z: Option<real>, r: real): seq<Reading> {
    if z.Some? && i < model.Order() then [Reading(i, z.value, r)] else []
  }

  /** The readings of one lane's share of a frame. */
  function FrameOf(c: Config, z: Sample): seq<Reading> {
    [Reading(0, z.position, c.rp)] + Optional(c.model, 1, z.velocity, c.rv) + Optional(c.model, 2, z.acceleration, c.ra)
  }

  lemma {:induction false} MeasuredIs(model: Model, b: Belief, i: nat, z: Option<real>, r: real)
    requires Sound(model, b) && i < 3 && r > 0.0
    ensures Measured(model, b, i, z, r) == FuseAll(model, b, Optional(model, i, z, r))
  {
    if z.Some? && i < model.Order() {
      MeasuredTakes(model, b, i, z, r);
      FuseOne(model, b, Reading(i, z.value, r));
    }
  }

  lemma MeasuredTakes(model: Model, b: Belief, i: nat, z: Option<real>, r: real)
    requires Sound(model, b) && i < model.Order() && r > 0.0 && z.Some?
    ensures Measured(model, b, i, z, r) == Take(model, b, Reading(i, z.value, r))
  {
    Taken(model, b, Reading(i, z.value, r));
  }

  lemma FuseOne(model: Model, b: Belief, m: Reading)
    ensures FuseAll(model, b, [m]) == Take(model, b, m)
  {
    var f, b1 := Taking(model), Take(model, b, m);
    assert Fold(f, b1, []) == b1 && [m][1..] == [];
  }

  lemma FuseThree(model: Model, b: Belief, b1: Belief, b2: Belief, b3: Belief,
                  rs: seq<Reading>, ts: seq<Reading>, us: seq<Reading>)
    requires b1 == FuseAll(model, b, rs) && b2 == FuseAll(model, b1, ts) && b3 == FuseAll(model, b2, us)
    ensures FuseAll(model, b, rs + ts + us) == b3
  {
    FoldMore(Taking(model), b, rs, ts);
    FoldMore(Taking(model), b, rs + ts, us);
  }

  lemma {:induction false} FrameIs(c: Config, b: Belief, z: Sample)
    requires c.Valid() && Sound(c.model, b)
    ensures Apt(c.model, FrameOf(c, z)) && Fused(c, b, z) == FuseAll(c.model, b, FrameOf(c, z))
  {
    var first := Optional(c.model, 0, Some(z.position), c.rp);
    var second, third := Optional(c.model, 1, z.velocity, c.rv), Optional(c.model, 2, z.acceleration, c.ra);
    var b1 := Measured(c.model, b, 0, Some(z.position), c.rp);
    var b2 := Measured(c.model, b1, 1, z.velocity, c.rv);
    MeasuredIs(c.model, b, 0, Some(z.position), c.rp);
    MeasuredIs(c.model, b1, 1, z.velocity, c.rv);
    MeasuredIs(c.model, b2, 2, z.acceleration, c.ra);
    FuseThree(c.model, b, b1, b2, Fused(c, b, z), first, second, third);
  }

  /** What `ingest` fuses is the best linear estimate from the whole frame, whichever components it has. */
  lemma {:induction false} FrameIsJoint(c: Config, b: Belief, z: Sample, u: Vec) returns (ks: seq<real>)
    requires c.Valid() && Sound(c.model, b)
    ensures |ks| == |FrameOf(c, z)| && Apt(c.model, FrameOf(c, z))
    ensures Quad(Fused(c, b, z).p, u) == Variance(b, u, FrameOf(c, z), ks)
    ensures Dot(u, Fused(c, b, z).x) == Estimate(b, u, FrameOf(c, z), ks)
    ensures forall ls: seq<real> :: |ls| == |FrameOf(c, z)| ==>
              Variance(b, u, FrameOf(c, z), ks) <= Variance(b, u, FrameOf(c, z), ls)
  {
    FrameIs(c, b, z);
    ks := JointEstimate(c.model, b, FrameOf(c, z), u);
  }
}
