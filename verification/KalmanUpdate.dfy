/** The scalar measurement update of StatePredictor: it keeps a covariance a covariance, no other gain
    does better, and two updates in either order are the joint update. */
module KalmanUpdate {
  import opened Vectors
  import opened Kalman

  function Over(v: Vec, s: real): Vec
    requires s != 0.0
  {
    Vec(v.a / s, v.b / s, v.c / s)
  }

  function Minus(m: Mat, n: Mat): Mat {
    Sum(m, Mat(Scale(-1.0, n.r0), Scale(-1.0, n.r1), Scale(-1.0, n.r2)))
  }

  /** Fuse a measurement z, with noise variance r, of component i. */
  function Updated(b: Belief, i: nat, z: real, r: real): Belief
    requires i < 3 && b.p.At(i, i) + r != 0.0
  {
    var gain := Over(b.p.Col(i), b.p.At(i, i) + r);
    Belief(Plus(b.x, Scale(z - b.x.At(i), gain)), Minus(b.p, Outer(gain, b.p.Row(i))))
  }

  function Cut(p: real, k: real, row: real): real {
    p - k * row
  }

  /** One covariance entry after an update. */
  function Less(p: real, col: real, row: real, s: real): real
    requires s != 0.0
  {
    Cut(p, col / s, row)
  }

  lemma UpdatedAt(b: Belief, i: nat, z: real, r: real, j: nat, k: nat)
    requires i < 3 && j < 3 && k < 3 && b.p.At(i, i) + r != 0.0
    ensures Updated(b, i, z, r).p.At(j, k) == Less(b.p.At(j, k), b.p.At(j, i), b.p.At(i, k), b.p.At(i, i) + r)
  {
    var gain := Over(b.p.Col(i), b.p.At(i, i) + r);
    MinusOuterAt(b.p, gain, b.p.Row(i), j, k);
    ColAt(b.p, j, i);
    OverAt(b.p.Col(i), b.p.At(i, i) + r, j);
  }

  /** One component of the mean moves like a covariance entry whose row is the negated innovation. */
  lemma UpdatedMeanAt(b: Belief, i: nat, z: real, r: real, j: nat)
    requires i < 3 && j < 3 && b.p.At(i, i) + r != 0.0
    ensures Updated(b, i, z, r).x.At(j) == Less(b.x.At(j), b.p.At(j, i), b.x.At(i) - z, b.p.At(i, i) + r)
  {
    var s := b.p.At(i, i) + r;
    ColAt(b.p, j, i);
    OverAt(b.p.Col(i), s, j);
    PlusScaleAt(b.x, z - b.x.At(i), Over(b.p.Col(i), s), j);
  }

  lemma PlusScaleAt(x: Vec, y: real, g: Vec, j: nat)
    requires j < 3
    ensures Plus(x, Scale(y, g)).At(j) == Cut(x.At(j), g.At(j), -y)
  {
  }

  lemma MinusOuterAt(m: Mat, v: Vec, w: Vec, j: nat, k: nat)
    requires j < 3 && k < 3
    ensures Minus(m, Outer(v, w)).At(j, k) == Cut(m.At(j, k), v.At(j), w.At(k))
  {
    MinusRow(m, Outer(v, w), j);
    OuterRow(v, w, j);
    CutAt(m.Row(j), v.At(j), w, k);
  }

  lemma MinusRow(m: Mat, n: Mat, j: nat)
    requires j < 3
    ensures Minus(m, n).Row(j) == Plus(m.Row(j), Scale(-1.0, n.Row(j)))
  {
  }

  lemma OuterRow(v: Vec, w: Vec, j: nat)
    requires j < 3
    ensures Outer(v, w).Row(j) == Scale(v.At(j), w)
  {
  }

  lemma CutAt(u: Vec, k: real, w: Vec, i: nat)
    requires i < 3
    ensures Plus(u, Scale(-1.0, Scale(k, w))).At(i) == Cut(u.At(i), k, w.At(i))
  {
  }

  lemma ColAt(m: Mat, j: nat, k: nat)
    requires j < 3 && k < 3
    ensures m.Col(k).At(j) == m.At(j, k)
  {
  }

  lemma OverAt(v: Vec, s: real, j: nat)
    requires s != 0.0 && j < 3
    ensures Over(v, s).At(j) == v.At(j) / s
  {
  }

  lemma QuadUnit(m: Mat, i: nat)
    requires i < 3
    ensures Quad(m, Unit(i)) == m.At(i, i)
  {
    UnitApply(m, i);
    UnitDot(i, m.Col(i));
  }

  lemma UnitApply(m: Mat, i: nat)
    requires i < 3
    ensures Apply(m, Unit(i)) == m.Col(i)
  {
    UnitDot(i, m.r0);
    UnitDot(i, m.r1);
    UnitDot(i, m.r2);
  }

  lemma UnitDot(i: nat, v: Vec)
    requires i < 3
    ensures Dot(Unit(i), v) == v.At(i) == Dot(v, Unit(i))
  {
  }

  /** The divisor of an update is positive. */
  lemma InnovationPositive(model: Model, b: Belief, i: nat, r: real)
    requires Sound(model, b) && i < 3 && r > 0.0
    ensures b.p.At(i, i) >= 0.0 && b.p.At(i, i) + r > 0.0
  {
    QuadUnit(b.p, i);
  }

  function Shifted(u: Vec, i: nat, k: real): Vec
    requires i < 3
  {
    if i == 0 then Vec(u.a + k, u.b, u.c) else if i == 1 then Vec(u.a, u.b + k, u.c) else Vec(u.a, u.b, u.c + k)
  }

  function Dot3(x: real, y: real, z: real, a: real, b: real, c: real): real {
    x * a + y * b + z * c
  }

  /** A quadratic form at distance k along a direction in which it has slope d and curvature x. */
  function Line(q: real, k: real, d: real, x: real): real {
    q + 2.0 * k * d + k * k * x
  }

  lemma FormLine(x: real, y: real, z: real, p: real, q: real, r: real, a: real, b: real, c: real, k: real)
    ensures Form(x, y, z, p, q, r, a + k, b, c) == Line(Form(x, y, z, p, q, r, a, b, c), k, Dot3(x, y, z, a, b, c), x)
    ensures Form(x, y, z, p, q, r, a, b + k, c) == Line(Form(x, y, z, p, q, r, a, b, c), k, Dot3(y, p, q, a, b, c), p)
    ensures Form(x, y, z, p, q, r, a, b, c + k) == Line(Form(x, y, z, p, q, r, a, b, c), k, Dot3(z, q, r, a, b, c), r)
  {
  }

  lemma DotIs3(u: Vec, v: Vec)
    ensures Dot(u, v) == Dot3(u.a, u.b, u.c, v.a, v.b, v.c)
  {
  }

  lemma QuadLine(m: Mat, u: Vec, i: nat, k: real)
    requires i < 3 && Symmetric(m)
    ensures Quad(m, Shifted(u, i, k)) == Line(Quad(m, u), k, Dot(m.Row(i), u), m.At(i, i))
  {
    QuadIsForm(m, u);
    QuadIsForm(m, Shifted(u, i, k));
    DotIs3(m.Row(i), u);
    FormLine(m.r0.a, m.r0.b, m.r0.c, m.r1.b, m.r1.c, m.r2.c, u.a, u.b, u.c, k);
  }

  // Quad after an update

  lemma DotOver(u: Vec, v: Vec, s: real)
    requires s != 0.0
    ensures Dot(u, Over(v, s)) == Dot(u, v) / s
  {
  }

  lemma OuterApply(v: Vec, w: Vec, u: Vec)
    ensures Apply(Outer(v, w), u) == Scale(Dot(w, u), v)
  {
    DotScale(v.a, w, u);
    DotScale(v.b, w, u);
    DotScale(v.c, w, u);
  }

  lemma DotScale(k: real, u: Vec, v: Vec)
    ensures Dot(Scale(k, u), v) == k * Dot(u, v)
  {
    Distribute(k, u.a * v.a, u.b * v.b, u.c * v.c);
    assert (k * u.a) * v.a == k * (u.a * v.a);
    assert (k * u.b) * v.b == k * (u.b * v.b);
    assert (k * u.c) * v.c == k * (u.c * v.c);
  }

  lemma OuterQuad(v: Vec, w: Vec, u: Vec)
    ensures Quad(Outer(v, w), u) == Dot(w, u) * Dot(u, v)
  {
    OuterApply(v, w, u);
    DotLinear(u, Dot(w, u), v, v);
  }

  lemma QuadMinus(m: Mat, n: Mat, u: Vec)
    ensures Quad(Minus(m, n), u) == Quad(m, u) - Quad(n, u)
  {
  }

  /** Along u, the update goes to the minimum of the line through u. */
  lemma UpdatedQuad(b: Belief, i: nat, z: real, r: real, u: Vec)
    requires i < 3 && Symmetric(b.p) && b.p.At(i, i) + r != 0.0
    ensures var d, s := Dot(b.p.Row(i), u), b.p.At(i, i) + r;
      Quad(Updated(b, i, z, r).p, u) == Line(Quad(b.p, u), -(d / s), d, s)
  {
    var s := b.p.At(i, i) + r;
    var gain := Over(b.p.Col(i), s);
    DownQuad(b.p, gain, b.p.Row(i), u);
    DotOver(u, b.p.Col(i), s);
    ColDot(b.p, i, u);
    Minimum(Quad(b.p, u), Dot(b.p.Row(i), u), s, Dot(u, gain));
  }

  function Drop(q: real, d: real, k: real): real {
    q - d * k
  }

  lemma DownQuad(p: Mat, gain: Vec, row: Vec, u: Vec)
    ensures Quad(Minus(p, Outer(gain, row)), u) == Drop(Quad(p, u), Dot(row, u), Dot(u, gain))
  {
    QuadMinus(p, Outer(gain, row), u);
    OuterQuad(gain, row, u);
  }

  lemma Minimum(q: real, d: real, s: real, k: real)
    requires s != 0.0 && k == d / s
    ensures Drop(q, d, k) == Line(q, -(d / s), d, s)
  {
    assert d == k * s;
  }

  lemma ColDot(m: Mat, i: nat, u: Vec)
    requires i < 3 && Symmetric(m)
    ensures Dot(u, m.Col(i)) == Dot(m.Row(i), u)
  {
  }

  const IDENTITY := Mat(Unit(0), Unit(1), Unit(2))

  /** The error covariance that a linear update with gain g would leave (Joseph's form). */
  function WithGain(p: Mat, i: nat, r: real, g: Vec): Mat
    requires i < 3
  {
    Sum(Sandwich(Minus(IDENTITY, Outer(g, Unit(i))), p), Outer(Scale(r, g), g))
  }

  lemma ResidualTransposed(i: nat, g: Vec, u: Vec)
    requires i < 3
    ensures Apply(Transpose(Minus(IDENTITY, Outer(g, Unit(i)))), u) == Shifted(u, i, -Dot(g, u))
  {
    ResidualRows(i, g);
    DotDifference(Unit(i), g, u);
    DotUnits(u);
  }

  /** The transpose of I - g e_i^T. */
  function Residual(i: nat, g: Vec): Mat
    requires i < 3
  {
    Mat(if i == 0 then Difference(Unit(0), g) else Unit(0),
        if i == 1 then Difference(Unit(1), g) else Unit(1),
        if i == 2 then Difference(Unit(2), g) else Unit(2))
  }

  lemma ResidualRows(i: nat, g: Vec)
    requires i < 3
    ensures Transpose(Minus(IDENTITY, Outer(g, Unit(i)))) == Residual(i, g)
  {
    OuterRow(g, Unit(i), 0);
    OuterRow(g, Unit(i), 1);
    OuterRow(g, Unit(i), 2);
    if i == 0 {
      assert Outer(g, Unit(i)) == Mat(Vec(g.a, 0.0, 0.0), Vec(g.b, 0.0, 0.0), Vec(g.c, 0.0, 0.0));
    } else if i == 1 {
      assert Outer(g, Unit(i)) == Mat(Vec(0.0, g.a, 0.0), Vec(0.0, g.b, 0.0), Vec(0.0, g.c, 0.0));
    } else {
      assert Outer(g, Unit(i)) == Mat(Vec(0.0, 0.0, g.a), Vec(0.0, 0.0, g.b), Vec(0.0, 0.0, g.c));
    }
  }

  lemma DotUnits(u: Vec)
    ensures Dot(Unit(0), u) == u.a && Dot(Unit(1), u) == u.b && Dot(Unit(2), u) == u.c
  {
  }

  function Difference(e: Vec, g: Vec): Vec {
    Vec(e.a - g.a, e.b - g.b, e.c - g.c)
  }

  lemma DotDifference(e: Vec, g: Vec, u: Vec)
    ensures Dot(Difference(e, g), u) == Dot(e, u) - Dot(g, u)
  {
    assert (e.a - g.a) * u.a == e.a * u.a - g.a * u.a;
    assert (e.b - g.b) * u.b == e.b * u.b - g.b * u.b;
    assert (e.c - g.c) * u.c == e.c * u.c - g.c * u.c;
  }

  lemma NoiseQuad(r: real, g: Vec, u: Vec)
    ensures Quad(Outer(Scale(r, g), g), u) == Line(0.0, -Dot(g, u), 0.0, r)
  {
    OuterQuad(Scale(r, g), g, u);
    DotLinear(u, r, g, g);
    DotCommutes(u, g);
  }

  lemma DotCommutes(u: Vec, v: Vec)
    ensures Dot(u, v) == Dot(v, u)
  {
  }

  lemma WithGainQuad(p: Mat, i: nat, r: real, g: Vec, u: Vec)
    requires i < 3 && Symmetric(p)
    ensures Quad(WithGain(p, i, r, g), u) == Line(Quad(p, u), -Dot(g, u), Dot(p.Row(i), u), p.At(i, i) + r)
  {
    var f := Minus(IDENTITY, Outer(g, Unit(i)));
    QuadSum(Sandwich(f, p), Outer(Scale(r, g), g), u);
    QuadSandwich(f, p, u);
    ResidualTransposed(i, g, u);
    QuadLine(p, u, i, -Dot(g, u));
    NoiseQuad(r, g, u);
    LinesAdd(Quad(p, u), -Dot(g, u), Dot(p.Row(i), u), p.At(i, i), r);
  }

  lemma LinesAdd(q: real, k: real, d: real, x: real, r: real)
    ensures Line(q, k, d, x) + Line(0.0, k, 0.0, r) == Line(q, k, d, x + r)
  {
  }

  /** The gain the code uses is the best one: in every direction no other linear update leaves less variance,
      and what it leaves is that gain's own error covariance. */
  lemma LeastVariance(model: Model, b: Belief, i: nat, z: real, r: real, g: Vec, u: Vec)
    requires Sound(model, b) && i < 3 && r > 0.0
    ensures b.p.At(i, i) + r > 0.0
    ensures Quad(Updated(b, i, z, r).p, u) <= Quad(WithGain(b.p, i, r, g), u)
    ensures Quad(Updated(b, i, z, r).p, u) == Quad(WithGain(b.p, i, r, Over(b.p.Col(i), b.p.At(i, i) + r)), u)
  {
    InnovationPositive(model, b, i, r);
    NoGainBetter(b, i, z, r, g, u);
    GainAttains(b, i, z, r, u);
  }

  lemma NoGainBetter(b: Belief, i: nat, z: real, r: real, g: Vec, u: Vec)
    requires i < 3 && Symmetric(b.p) && b.p.At(i, i) + r > 0.0
    ensures Quad(Updated(b, i, z, r).p, u) <= Quad(WithGain(b.p, i, r, g), u)
  {
    CompleteSquare(Quad(b.p, u), b.p.At(i, i) + r, Dot(b.p.Row(i), u), Dot(g, u));
    UpdatedQuad(b, i, z, r, u);
    WithGainQuad(b.p, i, r, g, u);
  }

  lemma GainAttains(b: Belief, i: nat, z: real, r: real, u: Vec)
    requires i < 3 && Symmetric(b.p) && b.p.At(i, i) + r > 0.0
    ensures Quad(Updated(b, i, z, r).p, u) == Quad(WithGain(b.p, i, r, Over(b.p.Col(i), b.p.At(i, i) + r)), u)
  {
    BestGain(b.p, i, b.p.At(i, i) + r, u);
    UpdatedQuad(b, i, z, r, u);
    WithGainQuad(b.p, i, r, Over(b.p.Col(i), b.p.At(i, i) + r), u);
  }

  lemma BestGain(p: Mat, i: nat, s: real, u: Vec)
    requires i < 3 && Symmetric(p) && s != 0.0
    ensures Dot(Over(p.Col(i), s), u) == Dot(p.Row(i), u) / s
  {
    DotCommutes(u, Over(p.Col(i), s));
    DotOver(u, p.Col(i), s);
    ColDot(p, i, u);
  }

  lemma CompleteSquare(q: real, s: real, d: real, k: real)
    requires s > 0.0
    ensures Line(q, -k, d, s) >= Line(q, -(d / s), d, s)
  {
    var t := d / s;
    assert d == t * s;
    assert Line(q, -k, t * s, s) - Line(q, -t, t * s, s) == s * ((k - t) * (k - t));
    WeightedSquare(s, k - t);
  }

  /** So what the update leaves is again a covariance. */
  lemma UpdatedSound(model: Model, b: Belief, i: nat, z: real, r: real)
    requires Sound(model, b) && i < model.Order() && r > 0.0
    ensures b.p.At(i, i) + r > 0.0
    ensures Sound(model, Updated(b, i, z, r))
  {
    InnovationPositive(model, b, i, r);
    forall u ensures Quad(Updated(b, i, z, r).p, u) >= 0.0 {
      UpdatedNonNegative(b, i, z, r, u);
    }
    UpdatedSymmetric(b, i, z, r);
    UpdatedPadded(model, b, i, z, r);
  }

  lemma UpdatedNonNegative(b: Belief, i: nat, z: real, r: real, u: Vec)
    requires i < 3 && Symmetric(b.p) && NonNegative(b.p) && b.p.At(i, i) + r > 0.0 && r > 0.0
    ensures Quad(Updated(b, i, z, r).p, u) >= 0.0
  {
    var d, x := Dot(b.p.Row(i), u), b.p.At(i, i);
    var k := -(d / (x + r));
    QuadLine(b.p, u, i, k);
    UpdatedQuad(b, i, z, r, u);
    LinesAdd(Quad(b.p, u), k, d, x, r);
    WeightedSquare(r, k);
  }

  lemma UpdatedSymmetric(b: Belief, i: nat, z: real, r: real)
    requires i < 3 && Symmetric(b.p) && b.p.At(i, i) + r != 0.0
    ensures Symmetric(Updated(b, i, z, r).p)
  {
    OuterOverSymmetric(b.p.Row(i), b.p.At(i, i) + r);
    RowIsCol(b.p, i);
    MinusSymmetric(b.p, Outer(Over(b.p.Col(i), b.p.At(i, i) + r), b.p.Row(i)));
  }

  lemma RowIsCol(m: Mat, i: nat)
    requires i < 3 && Symmetric(m)
    ensures m.Row(i) == m.Col(i)
  {
  }

  lemma OuterOverSymmetric(v: Vec, s: real)
    requires s != 0.0
    ensures Symmetric(Outer(Over(v, s), v))
  {
  }

  lemma MinusSymmetric(m: Mat, n: Mat)
    requires Symmetric(m) && Symmetric(n)
    ensures Symmetric(Minus(m, n))
  {
  }

  lemma UpdatedPadded(model: Model, b: Belief, i: nat, z: real, r: real)
    requires i < model.Order() && Symmetric(b.p) && Padded(model, b) && b.p.At(i, i) + r != 0.0
    ensures Padded(model, Updated(b, i, z, r))
  {
    if model.CV? {
      var gain := Over(b.p.Col(i), b.p.At(i, i) + r);
      assert b.p.Col(i).c == 0.0 && b.p.Row(i).c == 0.0;
      OuterPadded(gain, b.p.Row(i));
      MinusPadded(b.p, Outer(gain, b.p.Row(i)));
    }
  }

  lemma OuterPadded(v: Vec, w: Vec)
    requires v.c == 0.0 && w.c == 0.0
    ensures Outer(v, w).r2 == ZERO && Outer(v, w).Col(2) == ZERO
  {
  }

  lemma MinusPadded(m: Mat, n: Mat)
    requires m.r2 == ZERO && m.Col(2) == ZERO && n.r2 == ZERO && n.Col(2) == ZERO
    ensures Minus(m, n).r2 == ZERO && Minus(m, n).Col(2) == ZERO
  {
  }
}
