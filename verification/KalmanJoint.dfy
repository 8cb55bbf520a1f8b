/** StatePredictor measures components one after the other instead of inverting a matrix. With a diagonal
    measurement noise that is the joint update, and the order does not matter. */
module KalmanJoint {
  import opened Vectors
  import opened Kalman
  import opened KalmanUpdate

  /** A measurement z of component i with noise variance r. */
  datatype Reading = Reading(i: nat, z: real, r: real)

  function Spread(b: Belief, m: Reading): real
    requires m.i < 3
  {
    b.p.At(m.i, m.i) + m.r
  }

  function Det2(s: real, t: real, c: real): real {
    s * t - c * c
  }

  /** Determinant of the 2x2 innovation covariance of two readings. */
  function Det(b: Belief, m: Reading, n: Reading): real
    requires m.i < 3 && n.i < 3
  {
    Det2(Spread(b, m), Spread(b, n), b.p.At(m.i, n.i))
  }

  function Part(s: real, u: real, c: real, v: real): real {
    s * u - c * v
  }

  function PartVec(s: real, u: Vec, c: real, v: Vec): Vec {
    Vec(Part(s, u.a, c, v.a), Part(s, u.b, c, v.b), Part(s, u.c, c, v.c))
  }

  /** The first reading's column of the joint gain P H^T (H P H^T + R)^-1. */
  function JointGain(b: Belief, m: Reading, n: Reading): Vec
    requires m.i < 3 && n.i < 3 && Det(b, m, n) != 0.0
  {
    Over(PartVec(Spread(b, n), b.p.Col(m.i), b.p.At(m.i, n.i), b.p.Col(n.i)), Det(b, m, n))
  }

  /** Both readings fused at once, with the inverse of the 2x2 innovation covariance written out. */
  function Joint(b: Belief, m: Reading, n: Reading): Belief
    requires m.i < 3 && n.i < 3 && Det(b, m, n) != 0.0 && Det(b, n, m) != 0.0
  {
    var g, h := JointGain(b, m, n), JointGain(b, n, m);
    Belief(Plus(Plus(b.x, Scale(m.z - b.x.At(m.i), g)), Scale(n.z - b.x.At(n.i), h)),
           Minus(Minus(b.p, Outer(g, b.p.Row(m.i))), Outer(h, b.p.Row(n.i))))
  }

  function Fuse(b: Belief, m: Reading): Belief
    requires m.i < 3 && Spread(b, m) != 0.0
  {
    Updated(b, m.i, m.z, m.r)
  }

  /** The heart of it, for one entry: s and t are the two spreads, c their covariance. */
  lemma Twice(p: real, pm: real, pn: real, mp: real, np: real, s: real, t: real, c: real)
    requires s != 0.0 && Less(t, c, c, s) != 0.0
    ensures Det2(s, t, c) == s * Less(t, c, c, s) && Det2(s, t, c) != 0.0
    ensures Less(Less(p, pm, mp, s), Less(pn, pm, c, s), Less(np, c, mp, s), Less(t, c, c, s))
         == Cut(Cut(p, Part(t, pm, c, pn) / Det2(s, t, c), mp), Part(s, pn, c, pm) / Det2(s, t, c), np)
  {
    var a, k, w := pm / s, c / s, Less(t, c, c, s);
    assert pm == a * s && c == k * s;
    assert w == t - k * c;
    assert s * w == s * t - c * c by {
      assert s * (t - k * c) == s * t - (k * s) * c;
    }
    var e := pn - a * c;
    var f := e / w;
    assert e == f * w;
    Second(s, t, c, a, k, w, pn, e, f);
    assert Less(pn, pm, c, s) == e;
    Assemble(p, a, k, c, mp, np, s, f);
  }

  lemma Second(s: real, t: real, c: real, a: real, k: real, w: real, pn: real, e: real, f: real)
    requires s != 0.0 && w != 0.0 && c == k * s && w == t - k * c && e == pn - a * c && e == f * w
    ensures Part(s, pn, c, a * s) / (s * w) == f
    ensures Part(t, a * s, c, pn) / (s * w) == a - k * f
  {
    assert s * pn - c * (a * s) == s * e;
    assert s * e == f * (s * w);
    FirstPart(s, t, c, a, k, w, pn, e, f);
  }

  lemma FirstPart(s: real, t: real, c: real, a: real, k: real, w: real, pn: real, e: real, f: real)
    requires c == k * s && w == t - k * c && e == pn - a * c && e == f * w
    ensures t * (a * s) - c * pn == (a - k * f) * (s * w)
  {
    assert k * f * (s * w) == k * s * e;
    assert a * (s * w) == a * s * t - a * s * (k * c);
    assert k * s * e == c * pn - a * c * c;
    assert a * s * (k * c) == a * c * c;
  }

  lemma Assemble(p: real, a: real, k: real, c: real, mp: real, np: real, s: real, f: real)
    requires s != 0.0 && c == k * s
    ensures Cut(Cut(p, a, mp), f, Cut(np, k, mp)) == Cut(Cut(p, a - k * f, mp), f, np)
  {
  }

  lemma GainAt(b: Belief, m: Reading, n: Reading, j: nat)
    requires m.i < 3 && n.i < 3 && j < 3 && Det(b, m, n) != 0.0
    ensures JointGain(b, m, n).At(j)
         == Part(Spread(b, n), b.p.At(j, m.i), b.p.At(m.i, n.i), b.p.At(j, n.i)) / Det(b, m, n)
  {
    ColAt(b.p, j, m.i);
    ColAt(b.p, j, n.i);
    PartAt(Spread(b, n), b.p.Col(m.i), b.p.At(m.i, n.i), b.p.Col(n.i), j);
    OverAt(PartVec(Spread(b, n), b.p.Col(m.i), b.p.At(m.i, n.i), b.p.Col(n.i)), Det(b, m, n), j);
  }

  lemma PartAt(s: real, u: Vec, c: real, v: Vec, j: nat)
    requires j < 3
    ensures PartVec(s, u, c, v).At(j) == Part(s, u.At(j), c, v.At(j))
  {
  }

  lemma JointAt(b: Belief, m: Reading, n: Reading, j: nat, k: nat)
    requires m.i < 3 && n.i < 3 && j < 3 && k < 3 && Det(b, m, n) != 0.0 && Det(b, n, m) != 0.0
    ensures Joint(b, m, n).p.At(j, k)
         == Cut(Cut(b.p.At(j, k), JointGain(b, m, n).At(j), b.p.At(m.i, k)), JointGain(b, n, m).At(j), b.p.At(n.i, k))
  {
    var g, h := JointGain(b, m, n), JointGain(b, n, m);
    MinusOuterAt(b.p, g, b.p.Row(m.i), j, k);
    MinusOuterAt(Minus(b.p, Outer(g, b.p.Row(m.i))), h, b.p.Row(n.i), j, k);
  }

  /** What makes two successive updates well defined. */
  predicate Regular(b: Belief, m: Reading, n: Reading) {
    && m.i < 3 && n.i < 3 && Symmetric(b.p) && Spread(b, m) != 0.0 && Spread(Fuse(b, m), n) != 0.0
  }

  lemma SecondSpread(b: Belief, m: Reading, n: Reading)
    requires m.i < 3 && n.i < 3 && Symmetric(b.p) && Spread(b, m) != 0.0
    ensures Spread(Fuse(b, m), n) == Less(Spread(b, n), b.p.At(m.i, n.i), b.p.At(m.i, n.i), Spread(b, m))
  {
    UpdatedAt(b, m.i, m.z, m.r, n.i, n.i);
    AtMirrored(b.p, n.i, m.i);
    CutShift(b.p.At(n.i, n.i), b.p.At(m.i, n.i) / Spread(b, m), b.p.At(m.i, n.i), n.r);
  }

  lemma CutShift(p: real, k: real, row: real, r: real)
    ensures Cut(p, k, row) + r == Cut(p + r, k, row)
  {
  }

  lemma DetSwaps(b: Belief, m: Reading, n: Reading)
    requires m.i < 3 && n.i < 3 && Symmetric(b.p)
    ensures Det(b, m, n) == Det(b, n, m)
  {
    AtMirrored(b.p, m.i, n.i);
    Det2Swaps(Spread(b, m), Spread(b, n), b.p.At(m.i, n.i));
  }

  lemma Det2Swaps(s: real, t: real, c: real)
    ensures Det2(s, t, c) == Det2(t, s, c)
  {
  }

  lemma DetNonZero(b: Belief, m: Reading, n: Reading)
    requires Regular(b, m, n)
    ensures Det(b, m, n) == Det(b, n, m) != 0.0
  {
    SecondSpread(b, m, n);
    Twice(0.0, 0.0, 0.0, 0.0, 0.0, Spread(b, m), Spread(b, n), b.p.At(m.i, n.i));
    DetSwaps(b, m, n);
  }

  lemma SequentialAt(b: Belief, m: Reading, n: Reading, j: nat, k: nat)
    requires Regular(b, m, n) && j < 3 && k < 3
    ensures Det(b, m, n) == Det(b, n, m) != 0.0
    ensures Fuse(Fuse(b, m), n).p.At(j, k) == Joint(b, m, n).p.At(j, k)
  {
    DetNonZero(b, m, n);
    SecondSpread(b, m, n);
    var s, t, c := Spread(b, m), Spread(b, n), b.p.At(m.i, n.i);
    var once := Fuse(b, m);
    UpdatedAt(once, n.i, n.z, n.r, j, k);
    UpdatedAt(b, m.i, m.z, m.r, j, k);
    UpdatedAt(b, m.i, m.z, m.r, j, n.i);
    UpdatedAt(b, m.i, m.z, m.r, n.i, k);
    AtMirrored(b.p, n.i, m.i);
    Twice(b.p.At(j, k), b.p.At(j, m.i), b.p.At(j, n.i), b.p.At(m.i, k), b.p.At(n.i, k), s, t, c);
    JointAt(b, m, n, j, k);
    GainAt(b, m, n, j);
    GainAt(b, n, m, j);
  }

  lemma SequentialMeanAt(b: Belief, m: Reading, n: Reading, j: nat)
    requires Regular(b, m, n) && j < 3
    ensures Det(b, m, n) == Det(b, n, m) != 0.0
    ensures Fuse(Fuse(b, m), n).x.At(j) == Joint(b, m, n).x.At(j)
  {
    DetNonZero(b, m, n);
    SecondSpread(b, m, n);
    var s, t, c := Spread(b, m), Spread(b, n), b.p.At(m.i, n.i);
    UpdatedMeanAt(Fuse(b, m), n.i, n.z, n.r, j);
    UpdatedMeanAt(b, m.i, m.z, m.r, j);
    UpdatedMeanAt(b, m.i, m.z, m.r, n.i);
    UpdatedAt(b, m.i, m.z, m.r, j, n.i);
    AtMirrored(b.p, n.i, m.i);
    CutShift(b.x.At(n.i), b.p.At(n.i, m.i) / s, b.x.At(m.i) - m.z, -n.z);
    Twice(b.x.At(j), b.p.At(j, m.i), b.p.At(j, n.i), b.x.At(m.i) - m.z, b.x.At(n.i) - n.z, s, t, c);
    GainAt(b, m, n, j);
    GainAt(b, n, m, j);
    var g, h := JointGain(b, m, n), JointGain(b, n, m);
    PlusScaleAt(b.x, m.z - b.x.At(m.i), g, j);
    PlusScaleAt(Plus(b.x, Scale(m.z - b.x.At(m.i), g)), n.z - b.x.At(n.i), h, j);
  }

  /** Two scalar updates in turn are the joint update of both readings. */
  lemma SequentialIsJoint(model: Model, b: Belief, m: Reading, n: Reading)
    requires Sound(model, b) && m.i < model.Order() && n.i < model.Order() && m.r > 0.0 && n.r > 0.0
    ensures Regular(b, m, n) && Det(b, m, n) == Det(b, n, m) != 0.0
    ensures Fuse(Fuse(b, m), n) == Joint(b, m, n)
  {
    UpdatedSound(model, b, m.i, m.z, m.r);
    InnovationPositive(model, Fuse(b, m), n.i, n.r);
    DetNonZero(b, m, n);
    forall j, k | 0 <= j < 3 && 0 <= k < 3
      ensures Fuse(Fuse(b, m), n).p.At(j, k) == Joint(b, m, n).p.At(j, k)
    {
      SequentialAt(b, m, n, j, k);
    }
    SameMatrix(Fuse(Fuse(b, m), n).p, Joint(b, m, n).p);
    SequentialMeanAt(b, m, n, 0);
    SequentialMeanAt(b, m, n, 1);
    SequentialMeanAt(b, m, n, 2);
    SameVector(Fuse(Fuse(b, m), n).x, Joint(b, m, n).x);
  }

  lemma JointSwaps(b: Belief, m: Reading, n: Reading)
    requires m.i < 3 && n.i < 3 && Det(b, m, n) != 0.0 && Det(b, n, m) != 0.0
    ensures Joint(b, m, n) == Joint(b, n, m)
  {
    var g, h := JointGain(b, m, n), JointGain(b, n, m);
    MinusCommutes(b.p, Outer(g, b.p.Row(m.i)), Outer(h, b.p.Row(n.i)));
    PlusCommutes(b.x, Scale(m.z - b.x.At(m.i), g), Scale(n.z - b.x.At(n.i), h));
  }

  lemma MinusCommutes(l: Mat, m: Mat, n: Mat)
    ensures Minus(Minus(l, m), n) == Minus(Minus(l, n), m)
  {
  }

  lemma PlusCommutes(u: Vec, v: Vec, w: Vec)
    ensures Plus(Plus(u, v), w) == Plus(Plus(u, w), v)
  {
  }

  /** So the order in which a frame's components are fused is immaterial. */
  lemma OrderIrrelevant(model: Model, b: Belief, m: Reading, n: Reading)
    requires Sound(model, b) && m.i < model.Order() && n.i < model.Order() && m.r > 0.0 && n.r > 0.0
    ensures Regular(b, m, n) && Regular(b, n, m)
    ensures Fuse(Fuse(b, m), n) == Fuse(Fuse(b, n), m)
  {
    SequentialIsJoint(model, b, m, n);
    SequentialIsJoint(model, b, n, m);
    JointSwaps(b, m, n);
  }
}
