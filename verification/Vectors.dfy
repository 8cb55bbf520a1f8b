/** Three-component vectors and matrices over the reals, as far as the Kalman filter needs them. */
module Vectors {

  datatype Vec = Vec(a: real, b: real, c: real) {
    function At(i: nat): real
      requires i < 3
    {
      if i == 0 then a else if i == 1 then b else c
    }
  }

  const ZERO := Vec(0.0, 0.0, 0.0)

  function Unit(i: nat): Vec
    requires i < 3
  {
    if i == 0 then Vec(1.0, 0.0, 0.0) else if i == 1 then Vec(0.0, 1.0, 0.0) else Vec(0.0, 0.0, 1.0)
  }

  function Dot(u: Vec, v: Vec): real {
    u.a * v.a + u.b * v.b + u.c * v.c
  }

  function Plus(u: Vec, v: Vec): Vec {
    Vec(u.a + v.a, u.b + v.b, u.c + v.c)
  }

  function Scale(k: real, u: Vec): Vec {
    Vec(k * u.a, k * u.b, k * u.c)
  }

  /** A matrix, by rows. */
  datatype Mat = Mat(r0: Vec, r1: Vec, r2: Vec) {
    function Row(i: nat): Vec
      requires i < 3
    {
      if i == 0 then r0 else if i == 1 then r1 else r2
    }

    function At(i: nat, j: nat): real
      requires i < 3 && j < 3
    {
      Row(i).At(j)
    }

    function Col(j: nat): Vec
      requires j < 3
    {
      Vec(r0.At(j), r1.At(j), r2.At(j))
    }
  }

  function Transpose(m: Mat): Mat {
    Mat(m.Col(0), m.Col(1), m.Col(2))
  }

  function Apply(m: Mat, v: Vec): Vec {
    Vec(Dot(m.r0, v), Dot(m.r1, v), Dot(m.r2, v))
  }

  function Times(m: Mat, n: Mat): Mat {
    var t := Transpose(n);
    Mat(Apply(t, m.r0), Apply(t, m.r1), Apply(t, m.r2))
  }

  function Sum(m: Mat, n: Mat): Mat {
    Mat(Plus(m.r0, n.r0), Plus(m.r1, n.r1), Plus(m.r2, n.r2))
  }

  function Outer(u: Vec, v: Vec): Mat {
    Mat(Scale(u.a, v), Scale(u.b, v), Scale(u.c, v))
  }

  /** f m f^T */
  function Sandwich(f: Mat, m: Mat): Mat {
    Times(Times(f, m), Transpose(f))
  }

  predicate Symmetric(m: Mat) {
    m == Transpose(m)
  }

  /** u^T m u */
  function Quad(m: Mat, u: Vec): real {
    Dot(u, Apply(m, u))
  }

  ghost predicate NonNegative(m: Mat) {
    forall u :: Quad(m, u) >= 0.0
  }

  lemma DotLinear(u: Vec, k: real, v: Vec, w: Vec)
    ensures Dot(u, Plus(v, w)) == Dot(u, v) + Dot(u, w)
    ensures Dot(u, Scale(k, v)) == k * Dot(u, v)
  {
    Distribute(k, u.a * v.a, u.b * v.b, u.c * v.c);
    assert u.a * (k * v.a) == k * (u.a * v.a);
    assert u.b * (k * v.b) == k * (u.b * v.b);
    assert u.c * (k * v.c) == k * (u.c * v.c);
  }

  lemma Distribute(k: real, x: real, y: real, z: real)
    ensures k * (x + y + z) == k * x + k * y + k * z
  {
  }

  /** Moving a matrix across the inner product transposes it. */
  lemma Adjoint(u: Vec, m: Mat, v: Vec)
    ensures Dot(u, Apply(m, v)) == Dot(Apply(Transpose(m), u), v)
  {
    Distribute(u.a, m.r0.a * v.a, m.r0.b * v.b, m.r0.c * v.c);
    Distribute(u.b, m.r1.a * v.a, m.r1.b * v.b, m.r1.c * v.c);
    Distribute(u.c, m.r2.a * v.a, m.r2.b * v.b, m.r2.c * v.c);
    Distribute(v.a, m.r0.a * u.a, m.r1.a * u.b, m.r2.a * u.c);
    Distribute(v.b, m.r0.b * u.a, m.r1.b * u.b, m.r2.b * u.c);
    Distribute(v.c, m.r0.c * u.a, m.r1.c * u.b, m.r2.c * u.c);
    Regroup(u.a, m.r0.a, v.a); Regroup(u.a, m.r0.b, v.b); Regroup(u.a, m.r0.c, v.c);
    Regroup(u.b, m.r1.a, v.a); Regroup(u.b, m.r1.b, v.b); Regroup(u.b, m.r1.c, v.c);
    Regroup(u.c, m.r2.a, v.a); Regroup(u.c, m.r2.b, v.b); Regroup(u.c, m.r2.c, v.c);
  }

  lemma Regroup(x: real, y: real, z: real)
    ensures x * (y * z) == z * (y * x)
  {
  }

  lemma ApplyTimes(m: Mat, n: Mat, v: Vec)
    ensures Apply(Times(m, n), v) == Apply(m, Apply(n, v))
  {
    Adjoint(m.r0, n, v);
    Adjoint(m.r1, n, v);
    Adjoint(m.r2, n, v);
  }

  lemma TransposeTimes(m: Mat, n: Mat)
    ensures Transpose(Times(m, n)) == Times(Transpose(n), Transpose(m))
  {
  }

  lemma TimesAssociates(l: Mat, m: Mat, n: Mat)
    ensures Times(Times(l, m), n) == Times(l, Times(m, n))
  {
    TransposeTimes(m, n);
    ApplyTimes(Transpose(n), Transpose(m), l.r0);
    ApplyTimes(Transpose(n), Transpose(m), l.r1);
    ApplyTimes(Transpose(n), Transpose(m), l.r2);
  }

  lemma ApplyPlus(m: Mat, u: Vec, v: Vec)
    ensures Apply(m, Plus(u, v)) == Plus(Apply(m, u), Apply(m, v))
  {
    DotLinear(m.r0, 0.0, u, v);
    DotLinear(m.r1, 0.0, u, v);
    DotLinear(m.r2, 0.0, u, v);
  }

  lemma SumApply(m: Mat, n: Mat, u: Vec)
    ensures Apply(Sum(m, n), u) == Plus(Apply(m, u), Apply(n, u))
  {
  }

  lemma QuadSum(m: Mat, n: Mat, u: Vec)
    ensures Quad(Sum(m, n), u) == Quad(m, u) + Quad(n, u)
  {
    SumApply(m, n, u);
    DotLinear(u, 0.0, Apply(m, u), Apply(n, u));
  }

  /** A congruence only moves the point at which the quadratic form is read. */
  lemma QuadSandwich(f: Mat, m: Mat, u: Vec)
    ensures Quad(Sandwich(f, m), u) == Quad(m, Apply(Transpose(f), u))
  {
    var v := Apply(Transpose(f), u);
    ApplyTimes(Times(f, m), Transpose(f), u);
    ApplyTimes(f, m, v);
    Adjoint(u, f, Apply(m, v));
  }

  lemma SandwichSymmetric(f: Mat, m: Mat)
    requires Symmetric(m)
    ensures Symmetric(Sandwich(f, m))
  {
    TransposeTimes(Times(f, m), Transpose(f));
    TransposeTimes(f, m);
    TimesAssociates(f, m, Transpose(f));
  }

  lemma SandwichSum(f: Mat, m: Mat, n: Mat)
    ensures Sandwich(f, Sum(m, n)) == Sum(Sandwich(f, m), Sandwich(f, n))
  {
    TimesSum(f, m, n);
    ApplyPlus(f, Times(f, m).r0, Times(f, n).r0);
    ApplyPlus(f, Times(f, m).r1, Times(f, n).r1);
    ApplyPlus(f, Times(f, m).r2, Times(f, n).r2);
  }

  lemma TimesSum(f: Mat, m: Mat, n: Mat)
    ensures Times(f, Sum(m, n)) == Sum(Times(f, m), Times(f, n))
  {
    SumApply(Transpose(m), Transpose(n), f.r0);
    SumApply(Transpose(m), Transpose(n), f.r1);
    SumApply(Transpose(m), Transpose(n), f.r2);
  }

  lemma SandwichTwice(f: Mat, g: Mat, m: Mat)
    ensures Sandwich(g, Sandwich(f, m)) == Sandwich(Times(g, f), m)
  {
    TransposeTimes(g, f);
    TimesAssociates(g, Times(f, m), Transpose(f));
    TimesAssociates(g, f, m);
    TimesAssociates(Times(Times(g, f), m), Transpose(f), Transpose(g));
  }

  lemma SameMatrix(m: Mat, n: Mat)
    requires forall j, k :: 0 <= j < 3 && 0 <= k < 3 ==> m.At(j, k) == n.At(j, k)
    ensures m == n
  {
    assert m.At(0, 0) == n.At(0, 0) && m.At(0, 1) == n.At(0, 1) && m.At(0, 2) == n.At(0, 2);
    assert m.At(1, 0) == n.At(1, 0) && m.At(1, 1) == n.At(1, 1) && m.At(1, 2) == n.At(1, 2);
    assert m.At(2, 0) == n.At(2, 0) && m.At(2, 1) == n.At(2, 1) && m.At(2, 2) == n.At(2, 2);
  }

  lemma SameVector(u: Vec, v: Vec)
    requires u.At(0) == v.At(0) && u.At(1) == v.At(1) && u.At(2) == v.At(2)
    ensures u == v
  {
  }

  lemma AtMirrored(m: Mat, j: nat, k: nat)
    requires j < 3 && k < 3 && Symmetric(m)
    ensures m.At(j, k) == m.At(k, j)
  {
  }
}
