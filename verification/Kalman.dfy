/** The textbook Kalman filter that StatePredictor runs on each lane: x <- F x, P <- F P F^T + Q, then
    scalar measurement updates. A constant-velocity lane is kept in three components, the last one zero. */
module Kalman {
  import opened Vectors

  datatype Model = CV | CA {
    function Order(): nat {
      if CA? then 3 else 2
    }
  }

  /** q, the measurement noises of position, velocity and acceleration, and the variance a lane starts with. */
  datatype Config = Config(model: Model, q: real, rp: real, rv: real, ra: real, p0: real) {
    /** What the constructor accepts. */
    predicate Valid() {
      q >= 0.0 && rp > 0.0 && rv > 0.0 && ra > 0.0 && p0 > 0.0
    }
  }

  /** Mean and covariance of one lane. */
  datatype Belief = Belief(x: Vec, p: Mat)

  /** An upper triangular matrix with a unit diagonal. */
  function Shear(x: real, y: real, z: real): Mat {
    Mat(Vec(1.0, x, y), Vec(0.0, 1.0, z), Vec(0.0, 0.0, 1.0))
  }

  /** Constant-acceleration kinematics; on a lane whose third component is zero, constant velocity. */
  function Transition(dt: real): Mat {
    Shear(dt, 0.5 * dt * dt, dt)
  }

  // White noise of density q on the top derivative, integrated over dt.
  function Q00(q: real, dt: real): real { q * (dt * dt * dt * dt * dt) / 20.0 }
  function Q01(q: real, dt: real): real { q * (dt * dt * dt * dt) / 8.0 }
  function Q02(q: real, dt: real): real { q * (dt * dt * dt) / 6.0 }
  function Q11(q: real, dt: real): real { q * (dt * dt * dt) / 3.0 }
  function Q12(q: real, dt: real): real { q * (dt * dt) / 2.0 }
  function Q22(q: real, dt: real): real { q * dt }

  function ProcessNoise(model: Model, q: real, dt: real): Mat {
    match model
    case CV => Mat(Vec(Q11(q, dt), Q12(q, dt), 0.0), Vec(Q12(q, dt), Q22(q, dt), 0.0), ZERO)
    case CA => Mat(Vec(Q00(q, dt), Q01(q, dt), Q02(q, dt)),
                   Vec(Q01(q, dt), Q11(q, dt), Q12(q, dt)),
                   Vec(Q02(q, dt), Q12(q, dt), Q22(q, dt)))
  }

  function Propagated(c: Config, b: Belief, dt: real): Belief {
    Belief(Apply(Transition(dt), b.x), Sum(Sandwich(Transition(dt), b.p), ProcessNoise(c.model, c.q, dt)))
  }

  /** A constant-velocity lane never touches the third component. */
  predicate Padded(model: Model, b: Belief) {
    model.CV? ==> b.x.c == 0.0 && b.p.r2 == ZERO && b.p.Col(2) == ZERO
  }

  /** A covariance: symmetric, and no direction has negative variance. */
  ghost predicate Sound(model: Model, b: Belief) {
    Padded(model, b) && Symmetric(b.p) && NonNegative(b.p)
  }

  // Propagation keeps a covariance a covariance

  /** The quadratic form of a symmetric matrix, by entries. */
  function Form(m00: real, m01: real, m02: real, m11: real, m12: real, m22: real, a: real, b: real, c: real): real {
    m00 * a * a + 2.0 * (m01 * a * b) + 2.0 * (m02 * a * c) + m11 * b * b + 2.0 * (m12 * b * c) + m22 * c * c
  }

  lemma QuadIsForm(m: Mat, u: Vec)
    requires Symmetric(m)
    ensures Quad(m, u) == Form(m.r0.a, m.r0.b, m.r0.c, m.r1.b, m.r1.c, m.r2.c, u.a, u.b, u.c)
  {
    Distribute(u.a, m.r0.a * u.a, m.r0.b * u.b, m.r0.c * u.c);
    Distribute(u.b, m.r1.a * u.a, m.r1.b * u.b, m.r1.c * u.c);
    Distribute(u.c, m.r2.a * u.a, m.r2.b * u.b, m.r2.c * u.c);
  }

  lemma VelocitySquares(q: real, dt: real, a: real, b: real, c: real)
    ensures Form(Q11(q, dt), Q12(q, dt), 0.0, Q22(q, dt), 0.0, 0.0, a, b, c)
         == q * dt * ((b + dt * a / 2.0) * (b + dt * a / 2.0)) + q * dt * ((dt * a) * (dt * a)) / 12.0
  {
  }

  /** The jerk-noise form is a sum of three squares. */
  lemma JerkSquares(q: real, dt: real, a: real, b: real, c: real)
    ensures Form(Q00(q, dt), Q01(q, dt), Q02(q, dt), Q11(q, dt), Q12(q, dt), Q22(q, dt), a, b, c)
         == q * dt * ((c + dt * b / 2.0 + dt * dt * a / 6.0) * (c + dt * b / 2.0 + dt * dt * a / 6.0))
          + q * dt * ((dt * b + dt * dt * a / 2.0) * (dt * b + dt * dt * a / 2.0)) / 12.0
          + q * dt * ((dt * dt * a) * (dt * dt * a)) / 720.0
  {
  }

  lemma WeightedSquare(k: real, x: real)
    requires k >= 0.0
    ensures k * (x * x) >= 0.0
  {
    assert x * x >= 0.0;
  }

  lemma NoiseForm(model: Model, q: real, dt: real, a: real, b: real, c: real)
    requires q >= 0.0 && dt >= 0.0
    ensures var n := ProcessNoise(model, q, dt);
      Form(n.r0.a, n.r0.b, n.r0.c, n.r1.b, n.r1.c, n.r2.c, a, b, c) >= 0.0
  {
    assert q * dt >= 0.0;
    match model
    case CV =>
      VelocitySquares(q, dt, a, b, c);
      WeightedSquare(q * dt, b + dt * a / 2.0);
      WeightedSquare(q * dt, dt * a);
    case CA =>
      JerkSquares(q, dt, a, b, c);
      WeightedSquare(q * dt, c + dt * b / 2.0 + dt * dt * a / 6.0);
      WeightedSquare(q * dt, dt * b + dt * dt * a / 2.0);
      WeightedSquare(q * dt, dt * dt * a);
  }

  /** Process noise over a forward step is itself a covariance. */
  lemma NoiseNonNegative(model: Model, q: real, dt: real)
    requires q >= 0.0 && dt >= 0.0
    ensures NonNegative(ProcessNoise(model, q, dt)) && Symmetric(ProcessNoise(model, q, dt))
  {
    forall u ensures Quad(ProcessNoise(model, q, dt), u) >= 0.0 {
      QuadIsForm(ProcessNoise(model, q, dt), u);
      NoiseForm(model, q, dt, u.a, u.b, u.c);
    }
  }

  lemma DotThird(u: Vec, v: Vec)
    requires u.a == u.b == v.c == 0.0
    ensures Dot(u, v) == Dot(v, u) == 0.0
  {
  }

  lemma LastRowZero(f: Mat, p: Mat)
    requires f.r2.a == f.r2.b == 0.0 && p.r2 == ZERO
    ensures Times(f, p).r2 == ZERO
  {
    DotThird(f.r2, p.Col(0));
    DotThird(f.r2, p.Col(1));
    DotThird(f.r2, p.Col(2));
  }

  lemma SandwichPadded(f: Mat, p: Mat)
    requires f.r2.a == f.r2.b == 0.0 && p.r2 == ZERO && p.Col(2) == ZERO
    ensures Sandwich(f, p).r2 == ZERO && Sandwich(f, p).Col(2) == ZERO
  {
    TransposeTimes(f, p);
    TransposeTimes(Times(f, p), Transpose(f));
    LastRowZero(f, p);
  }

  lemma PropagatedPadded(c: Config, b: Belief, dt: real)
    requires Padded(c.model, b)
    ensures Padded(c.model, Propagated(c, b, dt))
  {
    if c.model.CV? {
      var f := Transition(dt);
      DotThird(f.r2, b.x);
      SandwichPadded(f, b.p);
      var n := ProcessNoise(c.model, c.q, dt);
      assert n.r2 == ZERO && n.Col(2) == ZERO;
      SumPadded(Sandwich(f, b.p), n);
    }
  }

  lemma SumPadded(m: Mat, n: Mat)
    requires m.r2 == ZERO && m.Col(2) == ZERO && n.r2 == ZERO && n.Col(2) == ZERO
    ensures Sum(m, n).r2 == ZERO && Sum(m, n).Col(2) == ZERO
  {
  }

  lemma SumSymmetric(m: Mat, n: Mat)
    requires Symmetric(m) && Symmetric(n)
    ensures Symmetric(Sum(m, n))
  {
  }

  lemma SandwichNonNegative(f: Mat, m: Mat, n: Mat)
    requires NonNegative(m) && NonNegative(n)
    ensures NonNegative(Sum(Sandwich(f, m), n))
  {
    forall u ensures Quad(Sum(Sandwich(f, m), n), u) >= 0.0 {
      QuadSum(Sandwich(f, m), n, u);
      QuadSandwich(f, m, u);
    }
  }

  lemma PropagatedSound(c: Config, b: Belief, dt: real)
    requires c.Valid() && Sound(c.model, b) && dt >= 0.0
    ensures Sound(c.model, Propagated(c, b, dt))
  {
    PropagatedPadded(c, b, dt);
    NoiseNonNegative(c.model, c.q, dt);
    var f, n := Transition(dt), ProcessNoise(c.model, c.q, dt);
    SandwichSymmetric(f, b.p);
    SumSymmetric(Sandwich(f, b.p), n);
    SandwichNonNegative(f, b.p, n);
  }

  // The closed form that the code evaluates

  function Mix(x: real, y: real, a: real, b: real, c: real): real {
    a + x * b + y * c
  }

  function Lean(z: real, b: real, c: real): real {
    b + z * c
  }

  /** A shear applied to a vector. */
  function Moved(x: real, y: real, z: real, v: Vec): Vec {
    Vec(Mix(x, y, v.a, v.b, v.c), Lean(z, v.b, v.c), v.c)
  }

  function Row0(x: real, y: real, m: Mat): Vec {
    Vec(Mix(x, y, m.r0.a, m.r1.a, m.r2.a), Mix(x, y, m.r0.b, m.r1.b, m.r2.b), Mix(x, y, m.r0.c, m.r1.c, m.r2.c))
  }

  function Row1(z: real, m: Mat): Vec {
    Vec(Lean(z, m.r1.a, m.r2.a), Lean(z, m.r1.b, m.r2.b), Lean(z, m.r1.c, m.r2.c))
  }

  /** A shear applied to both sides of a matrix. */
  function Sheared(x: real, y: real, z: real, m: Mat): Mat {
    Mat(Moved(x, y, z, Row0(x, y, m)), Moved(x, y, z, Row1(z, m)), Moved(x, y, z, m.r2))
  }

  lemma DotOf(x: real, y: real, z: real, a: real, b: real, c: real)
    ensures Dot(Vec(x, y, z), Vec(a, b, c)) == a * x + b * y + c * z
  {
  }

  lemma MovedIs(x: real, y: real, z: real, v: Vec)
    ensures Apply(Shear(x, y, z), v) == Moved(x, y, z, v)
  {
    DotOf(1.0, x, y, v.a, v.b, v.c);
    DotOf(0.0, 1.0, z, v.a, v.b, v.c);
    DotOf(0.0, 0.0, 1.0, v.a, v.b, v.c);
  }

  lemma RowOf(m: Mat, x: real, y: real, z: real)
    ensures Apply(Transpose(m), Vec(x, y, z)) == Plus(Scale(x, m.r0), Plus(Scale(y, m.r1), Scale(z, m.r2)))
  {
  }

  lemma ShearRows(x: real, y: real, z: real, m: Mat)
    ensures Apply(Transpose(m), Vec(1.0, x, y)) == Row0(x, y, m)
    ensures Apply(Transpose(m), Vec(0.0, 1.0, z)) == Row1(z, m)
    ensures Apply(Transpose(m), Vec(0.0, 0.0, 1.0)) == m.r2
  {
    RowOf(m, 1.0, x, y);
    RowOf(m, 0.0, 1.0, z);
    RowOf(m, 0.0, 0.0, 1.0);
  }

  lemma TimesByRows(m: Mat, n: Mat, k: Mat)
    requires Apply(Transpose(n), m.r0) == k.r0
    requires Apply(Transpose(n), m.r1) == k.r1
    requires Apply(Transpose(n), m.r2) == k.r2
    ensures Times(m, n) == k
  {
  }

  /** The code's closed form is the textbook product F m F^T. */
  lemma ShearedIsSandwich(x: real, y: real, z: real, m: Mat)
    ensures Sandwich(Shear(x, y, z), m) == Sheared(x, y, z, m)
  {
    var f := Shear(x, y, z);
    ShearRows(x, y, z, m);
    TimesByRows(f, m, Mat(Row0(x, y, m), Row1(z, m), m.r2));
    var g := Times(f, m);
    MovedIs(x, y, z, g.r0);
    MovedIs(x, y, z, g.r1);
    MovedIs(x, y, z, g.r2);
    assert Transpose(Transpose(f)) == f;
    TimesByRows(g, Transpose(f), Sheared(x, y, z, m));
  }

  // Propagation is a semigroup

  lemma ShearProduct(x: real, y: real, z: real, x': real, y': real, z': real, f: Mat, g: Mat, k: Mat)
    requires f == Shear(x, y, z) && g == Shear(x', y', z') && k == Shear(x + x', y + x' * z + y', z + z')
    ensures Times(g, f) == k
  {
    ShearsCompose(x, y, z, x', y', z');
  }

  lemma ShearsCompose(x: real, y: real, z: real, x': real, y': real, z': real)
    ensures Times(Shear(x', y', z'), Shear(x, y, z)) == Shear(x + x', y + x' * z + y', z + z')
  {
    FirstRows(x, y, z, x', y', z');
    LastRow(x, y, z, 1.0);
    TimesByRows(Shear(x', y', z'), Shear(x, y, z), Shear(x + x', y + x' * z + y', z + z'));
  }

  lemma FirstRows(x: real, y: real, z: real, x': real, y': real, z': real)
    ensures Apply(Transpose(Shear(x, y, z)), Vec(1.0, x', y')) == Vec(1.0, x + x', y + x' * z + y')
    ensures Apply(Transpose(Shear(x, y, z)), Vec(0.0, 1.0, z')) == Vec(0.0, 1.0, z + z')
  {
    ShearRow(x, y, z, 1.0, x', y');
    ShearRow(x, y, z, 0.0, 1.0, z');
  }

  lemma LastRow(x: real, y: real, z: real, c: real)
    ensures Apply(Transpose(Shear(x, y, z)), Vec(0.0, 0.0, c)) == Vec(0.0, 0.0, c)
  {
    ShearRow(x, y, z, 0.0, 0.0, c);
  }

  lemma ShearRow(x: real, y: real, z: real, a: real, b: real, c: real)
    ensures Apply(Transpose(Shear(x, y, z)), Vec(a, b, c)) == Vec(a, a * x + b, a * y + b * z + c)
  {
    DotOf(1.0, 0.0, 0.0, a, b, c);
    DotOf(x, 1.0, 0.0, a, b, c);
    DotOf(y, z, 1.0, a, b, c);
  }

  lemma TransitionsCompose(s: real, t: real)
    ensures Times(Transition(t), Transition(s)) == Transition(s + t)
  {
    TransitionSum(s, t);
    ShearProduct(s, 0.5 * s * s, s, t, 0.5 * t * t, t, Transition(s), Transition(t), Transition(s + t));
  }

  lemma TransitionSum(s: real, t: real)
    ensures Transition(s + t) == Shear(s + t, 0.5 * s * s + t * s + 0.5 * t * t, s + t)
  {
    assert 0.5 * s * s + t * s + 0.5 * t * t == 0.5 * (s + t) * (s + t);
  }

  function Square(x: real): real { x * x }
  function Cube(x: real): real { x * x * x }
  function Fourth(x: real): real { x * x * x * x }
  function Fifth(x: real): real { x * x * x * x * x }

  lemma CubeOfSum(s: real, t: real)
    ensures Cube(s + t) == Cube(s) + 3.0 * (Square(s) * t) + 3.0 * (s * Square(t)) + Cube(t)
  {
  }

  lemma FourthOfSum(s: real, t: real)
    ensures Fourth(s + t)
         == Fourth(s) + 4.0 * (Cube(s) * t) + 6.0 * (Square(s) * Square(t)) + 4.0 * (s * Cube(t)) + Fourth(t)
  {
    CubeOfSum(s, t);
    assert Fourth(s + t) == Cube(s + t) * (s + t);
  }

  lemma FifthOfSum(s: real, t: real)
    ensures Fifth(s + t)
         == Fifth(s) + 5.0 * (Fourth(s) * t) + 10.0 * (Cube(s) * Square(t)) + 10.0 * (Square(s) * Cube(t))
          + 5.0 * (s * Fourth(t)) + Fifth(t)
  {
    FourthOfSum(s, t);
    assert Fifth(s + t) == Fourth(s + t) * (s + t);
  }

  // The first row of F Q(s), by powers of s and t

  function Top0(s: real, t: real): real { Fifth(s) / 20.0 + Fourth(s) * t / 8.0 + Cube(s) * Square(t) / 12.0 }
  function Top1(s: real, t: real): real { Fourth(s) / 8.0 + Cube(s) * t / 3.0 + Square(s) * Square(t) / 4.0 }
  function Top2(s: real, t: real): real { Cube(s) / 6.0 + Square(s) * t / 2.0 + s * Square(t) / 2.0 }
  function Dense(q: real, x: real): real { q * x }
  function Half(t: real): real { 0.5 * t * t }

  lemma TopOfNoise(q: real, s: real, t: real)
    ensures Mix(t, Half(t), Q00(q, s), Q01(q, s), Q02(q, s)) == Dense(q, Top0(s, t))
    ensures Mix(t, Half(t), Q01(q, s), Q11(q, s), Q12(q, s)) == Dense(q, Top1(s, t))
    ensures Mix(t, Half(t), Q02(q, s), Q12(q, s), Q22(q, s)) == Dense(q, Top2(s, t))
  {
    TopOfNoise0(q, s, t);
    TopOfNoise1(q, s, t);
    TopOfNoise2(q, s, t);
  }

  lemma TopOfNoise0(q: real, s: real, t: real)
    ensures Mix(t, Half(t), Q00(q, s), Q01(q, s), Q02(q, s)) == Dense(q, Top0(s, t))
  {
  }

  lemma TopOfNoise1(q: real, s: real, t: real)
    ensures Mix(t, Half(t), Q01(q, s), Q11(q, s), Q12(q, s)) == Dense(q, Top1(s, t))
  {
  }

  lemma TopOfNoise2(q: real, s: real, t: real)
    ensures Mix(t, Half(t), Q02(q, s), Q12(q, s), Q22(q, s)) == Dense(q, Top2(s, t))
  {
  }

  lemma NoiseIs(q: real, x: real)
    ensures Q00(q, x) == Dense(q, Fifth(x) / 20.0)
    ensures Q01(q, x) == Dense(q, Fourth(x) / 8.0)
    ensures Q02(q, x) == Dense(q, Cube(x) / 6.0)
  {
  }

  /** The three terms of the first entry add up to the fifth power of the sum. */
  lemma FifthSplit(s: real, t: real)
    ensures Mix(t, Half(t), Top0(s, t), Top1(s, t), Top2(s, t)) + Fifth(t) / 20.0 == Fifth(s + t) / 20.0
  {
    FifthOfSum(s, t);
    Top1Times(s, t);
    Top2Half(s, t);
  }

  lemma Top1Times(s: real, t: real)
    ensures t * Top1(s, t) == Fourth(s) * t / 8.0 + Cube(s) * Square(t) / 3.0 + Square(s) * Cube(t) / 4.0
  {
  }

  lemma Top2Half(s: real, t: real)
    ensures Half(t) * Top2(s, t) == Cube(s) * Square(t) / 12.0 + Square(s) * Cube(t) / 4.0 + s * Fourth(t) / 4.0
  {
  }

  lemma FourthSplit(s: real, t: real)
    ensures Lean(t, Top1(s, t), Top2(s, t)) + Fourth(t) / 8.0 == Fourth(s + t) / 8.0
  {
    FourthOfSum(s, t);
    assert t * Top2(s, t) == Cube(s) * t / 6.0 + Square(s) * Square(t) / 2.0 + s * Cube(t) / 2.0;
  }

  lemma CubeSplit(s: real, t: real)
    ensures Top2(s, t) + Cube(t) / 6.0 == Cube(s + t) / 6.0
  {
    CubeOfSum(s, t);
  }

  lemma Gather(q: real, t: real, h: real, a: real, b: real, c: real, d: real)
    ensures Mix(t, h, Dense(q, a), Dense(q, b), Dense(q, c)) + Dense(q, d) == Dense(q, Mix(t, h, a, b, c) + d)
    ensures Lean(t, Dense(q, a), Dense(q, b)) + Dense(q, d) == Dense(q, Lean(t, a, b) + d)
    ensures Dense(q, a) + Dense(q, d) == Dense(q, a + d)
  {
  }

  lemma Noise00(q: real, s: real, t: real)
    ensures Mix(t, Half(t), Mix(t, Half(t), Q00(q, s), Q01(q, s), Q02(q, s)),
                            Mix(t, Half(t), Q01(q, s), Q11(q, s), Q12(q, s)),
                            Mix(t, Half(t), Q02(q, s), Q12(q, s), Q22(q, s))) + Q00(q, t) == Q00(q, s + t)
  {
    TopOfNoise(q, s, t);
    NoiseIs(q, t);
    NoiseIs(q, s + t);
    FifthSplit(s, t);
    Gather(q, t, Half(t), Top0(s, t), Top1(s, t), Top2(s, t), Fifth(t) / 20.0);
  }

  lemma Noise01(q: real, s: real, t: real)
    ensures Lean(t, Mix(t, Half(t), Q01(q, s), Q11(q, s), Q12(q, s)),
                    Mix(t, Half(t), Q02(q, s), Q12(q, s), Q22(q, s))) + Q01(q, t) == Q01(q, s + t)
  {
    TopOfNoise(q, s, t);
    NoiseIs(q, t);
    NoiseIs(q, s + t);
    FourthSplit(s, t);
    Gather(q, t, Half(t), Top1(s, t), Top2(s, t), 0.0, Fourth(t) / 8.0);
  }

  lemma Noise02(q: real, s: real, t: real)
    ensures Mix(t, Half(t), Q02(q, s), Q12(q, s), Q22(q, s)) + Q02(q, t) == Q02(q, s + t)
  {
    TopOfNoise(q, s, t);
    NoiseIs(q, t);
    NoiseIs(q, s + t);
    CubeSplit(s, t);
    Gather(q, t, Half(t), Top2(s, t), 0.0, 0.0, Cube(t) / 6.0);
  }

  lemma NoiseRow1(q: real, s: real, t: real)
    ensures Mix(t, 0.5 * t * t, Lean(t, Q01(q, s), Q02(q, s)), Lean(t, Q11(q, s), Q12(q, s)),
                                Lean(t, Q12(q, s), Q22(q, s))) + Q01(q, t) == Q01(q, s + t)
  {
  }

  lemma NoiseRow2(q: real, s: real, t: real)
    ensures Lean(t, Lean(t, Q11(q, s), Q12(q, s)), Lean(t, Q12(q, s), Q22(q, s))) + Q11(q, t) == Q11(q, s + t)
    ensures Lean(t, Q12(q, s), Q22(q, s)) + Q12(q, t) == Q12(q, s + t)
    ensures Q22(q, s) + Q22(q, t) == Q22(q, s + t)
  {
  }

  lemma CvNoiseRow0(q: real, s: real, t: real)
    ensures Mix(t, 0.5 * t * t, Mix(t, 0.5 * t * t, Q11(q, s), Q12(q, s), 0.0),
                                Mix(t, 0.5 * t * t, Q12(q, s), Q22(q, s), 0.0),
                                Mix(t, 0.5 * t * t, 0.0, 0.0, 0.0)) + Q11(q, t) == Q11(q, s + t)
  {
  }

  lemma ShearedNoise(model: Model, q: real, s: real, t: real)
    ensures Sum(Sheared(t, 0.5 * t * t, t, ProcessNoise(model, q, s)), ProcessNoise(model, q, t))
         == ProcessNoise(model, q, s + t)
  {
    Noise00(q, s, t);
    Noise01(q, s, t);
    Noise02(q, s, t);
    NoiseRow1(q, s, t);
    NoiseRow2(q, s, t);
    CvNoiseRow0(q, s, t);
  }

  lemma NoiseComposes(model: Model, q: real, s: real, t: real)
    ensures Sum(Sandwich(Transition(t), ProcessNoise(model, q, s)), ProcessNoise(model, q, t))
         == ProcessNoise(model, q, s + t)
  {
    ShearedIsSandwich(t, 0.5 * t * t, t, ProcessNoise(model, q, s));
    ShearedNoise(model, q, s, t);
  }

  lemma CovarianceComposes(f: Mat, g: Mat, h: Mat, p: Mat, m: Mat, n: Mat, k: Mat)
    requires Times(g, f) == h && Sum(Sandwich(g, m), n) == k
    ensures Sum(Sandwich(g, Sum(Sandwich(f, p), m)), n) == Sum(Sandwich(h, p), k)
  {
    SandwichSum(g, Sandwich(f, p), m);
    SandwichTwice(f, g, p);
    SumAssociates(Sandwich(h, p), Sandwich(g, m), n);
  }

  lemma SumAssociates(l: Mat, m: Mat, n: Mat)
    ensures Sum(Sum(l, m), n) == Sum(l, Sum(m, n))
  {
  }

  lemma MeanComposes(f: Mat, g: Mat, h: Mat, x: Vec)
    requires Times(g, f) == h
    ensures Apply(g, Apply(f, x)) == Apply(h, x)
  {
    ApplyTimes(g, f, x);
  }

  /** Propagating by s and then by t is propagating by s + t, process noise included. */
  lemma PropagationComposes(c: Config, b: Belief, s: real, t: real)
    ensures Propagated(c, Propagated(c, b, s), t) == Propagated(c, b, s + t)
  {
    var f, g, h := Transition(s), Transition(t), Transition(s + t);
    var m, n, k := ProcessNoise(c.model, c.q, s), ProcessNoise(c.model, c.q, t), ProcessNoise(c.model, c.q, s + t);
    TransitionsCompose(s, t);
    NoiseComposes(c.model, c.q, s, t);
    MeanComposes(f, g, h, b.x);
    CovarianceComposes(f, g, h, b.p, m, n, k);
  }
}
