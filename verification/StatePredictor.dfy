/** StatePredictor: one Kalman filter per lane, in flat arrays rewritten in place. */
module StatePredictor {
  import opened Vectors
  import opened Kalman
  import opened KalmanUpdate
  import opened KalmanHistory

  /** Offset of lane i when every lane takes w slots. */
  function Base(i: nat, w: nat): nat {
    i * w
  }

  lemma BaseBound(i: nat, n: nat, w: nat)
    ensures i < n ==> Base(i, w) + w <= Base(n, w)
  {
    if i < n {
      assert (i + 1) * w <= n * w;
    }
  }

  /** Offset of row j, column k in a row-major m by m block. */
  function Cell(base: nat, m: nat, j: nat, k: nat): nat {
    base + j * m + k
  }

  lemma CellBound(base: nat, m: nat, j: nat, k: nat)
    requires 2 <= m <= 3 && j < m && k < m
    ensures base <= Cell(base, m, j, k) < base + m * m
  {
    if m == 2 {
    } else {
    }
  }

  function LaneVec(xs: seq<real>, base: nat, m: nat): Vec
    requires 2 <= m <= 3 && base + m <= |xs|
  {
    Vec(xs[base], xs[base + 1], if m == 3 then xs[base + 2] else 0.0)
  }

  function LaneMat(ps: seq<real>, base: nat, m: nat): Mat
    requires 2 <= m <= 3 && base + m * m <= |ps|
  {
    if m == 3 then
      Mat(Vec(ps[base], ps[base + 1], ps[base + 2]),
          Vec(ps[base + 3], ps[base + 4], ps[base + 5]),
          Vec(ps[base + 6], ps[base + 7], ps[base + 8]))
    else
      Mat(Vec(ps[base], ps[base + 1], 0.0), Vec(ps[base + 2], ps[base + 3], 0.0), ZERO)
  }

  lemma LaneMatAt(ps: seq<real>, base: nat, m: nat, j: nat, k: nat)
    requires 2 <= m <= 3 && base + m * m <= |ps| && j < m && k < m
    ensures Cell(base, m, j, k) < |ps| && LaneMat(ps, base, m).At(j, k) == ps[Cell(base, m, j, k)]
  {
    CellBound(base, m, j, k);
  }

  lemma LaneVecAt(xs: seq<real>, base: nat, m: nat, j: nat)
    requires 2 <= m <= 3 && base + m <= |xs| && j < m
    ensures LaneVec(xs, base, m).At(j) == xs[base + j]
  {
  }

  /** A belief whose cells are those of the update is the update. */
  lemma UpdatedCells(model: Model, b: Belief, b': Belief, idx: nat, z: real, r: real, gain: seq<real>)
    requires Sound(model, b) && Padded(model, b') && idx < model.Order() && r > 0.0
    requires |gain| == model.Order() && b.p.At(idx, idx) + r != 0.0
    requires forall j :: 0 <= j < |gain| ==> gain[j] == b.p.At(j, idx) / (b.p.At(idx, idx) + r)
    requires forall j :: 0 <= j < |gain| ==> b'.x.At(j) == Cut(b.x.At(j), gain[j], b.x.At(idx) - z)
    requires forall j, k :: 0 <= j < |gain| && 0 <= k < |gain|
               ==> b'.p.At(j, k) == Cut(b.p.At(j, k), gain[j], b.p.At(idx, k))
    ensures b' == Updated(b, idx, z, r)
  {
    var u := Updated(b, idx, z, r);
    UpdatedPadded(model, b, idx, z, r);
    forall j, k | 0 <= j < 3 && 0 <= k < 3 ensures b'.p.At(j, k) == u.p.At(j, k) {
      if j < |gain| && k < |gain| {
        UpdatedAt(b, idx, z, r, j, k);
      } else {
        PaddingAt(model, b', j, k);
        PaddingAt(model, u, j, k);
      }
    }
    SameMatrix(b'.p, u.p);
    forall j | 0 <= j < |gain| ensures b'.x.At(j) == u.x.At(j) {
      UpdatedMeanAt(b, idx, z, r, j);
    }
    SameVector(b'.x, u.x);
  }

  lemma PaddingAt(model: Model, b: Belief, j: nat, k: nat)
    requires Padded(model, b) && model.Order() <= (if j < k then k else j) && j < 3 && k < 3
    ensures b.p.At(j, k) == 0.0
  {
  }

  /** Each entry the code computes for the propagated covariance, in the closed form of `Sheared`. */
  lemma PropagatedEntries(c: Config, b: Belief, dt: real)
    ensures Propagated(c, b, dt).x == Moved(dt, 0.5 * dt * dt, dt, b.x)
    ensures Propagated(c, b, dt).p == Sum(Sheared(dt, 0.5 * dt * dt, dt, b.p), ProcessNoise(c.model, c.q, dt))
  {
    MovedIs(dt, 0.5 * dt * dt, dt, b.x);
    ShearedIsSandwich(dt, 0.5 * dt * dt, dt, b.p);
  }

  lemma PaddedMix(dt: real, h: real, a: real, b: real)
    ensures Mix(dt, h, a, b, 0.0) == Lean(dt, a, b) && Mix(dt, h, 0.0, 0.0, 0.0) == 0.0
    ensures Lean(dt, a, 0.0) == a
  {
  }

  /** F P F^T + Q of a constant-velocity lane, entry by entry as the code computes it. */
  function CvCovariance(p: Mat, q: real, dt: real): Mat {
    Mat(Vec(Lean(dt, Lean(dt, p.r0.a, p.r1.a), Lean(dt, p.r0.b, p.r1.b)) + Q11(q, dt),
            Lean(dt, p.r0.b, p.r1.b) + Q12(q, dt), 0.0),
        Vec(Lean(dt, p.r1.a, p.r1.b) + Q12(q, dt), p.r1.b + Q22(q, dt), 0.0),
        ZERO)
  }

  lemma CvMean(dt: real, v: Vec)
    requires v.c == 0.0
    ensures Moved(dt, 0.5 * dt * dt, dt, v) == Vec(Lean(dt, v.a, v.b), v.b, 0.0)
  {
    PaddedMix(dt, 0.5 * dt * dt, v.a, v.b);
    PaddedMix(dt, 0.5 * dt * dt, v.b, 0.0);
  }

  lemma CvSheared(dt: real, p: Mat)
    requires p.r2 == ZERO && p.Col(2) == ZERO
    ensures Sheared(dt, 0.5 * dt * dt, dt, p)
         == Mat(Vec(Lean(dt, Lean(dt, p.r0.a, p.r1.a), Lean(dt, p.r0.b, p.r1.b)), Lean(dt, p.r0.b, p.r1.b), 0.0),
                Vec(Lean(dt, p.r1.a, p.r1.b), p.r1.b, 0.0), ZERO)
  {
    var h := 0.5 * dt * dt;
    PaddedMix(dt, h, p.r0.a, p.r1.a);
    PaddedMix(dt, h, p.r0.b, p.r1.b);
    PaddedMix(dt, h, p.r1.a, 0.0);
    PaddedMix(dt, h, p.r1.b, 0.0);
    assert Row0(dt, h, p) == Vec(Lean(dt, p.r0.a, p.r1.a), Lean(dt, p.r0.b, p.r1.b), 0.0);
    assert Row1(dt, p) == Vec(p.r1.a, p.r1.b, 0.0);
    CvMean(dt, Row0(dt, h, p));
    CvMean(dt, Row1(dt, p));
    CvMean(dt, ZERO);
  }

  lemma CvClosedForm(c: Config, b: Belief, dt: real)
    requires c.model.CV? && Padded(CV, b)
    ensures Propagated(c, b, dt).x == Vec(Lean(dt, b.x.a, b.x.b), b.x.b, 0.0)
    ensures Propagated(c, b, dt).p == CvCovariance(b.p, c.q, dt)
  {
    PropagatedEntries(c, b, dt);
    CvMean(dt, b.x);
    CvSheared(dt, b.p);
    CvSum(b.p, c.q, dt);
  }

  lemma CvSum(p: Mat, q: real, dt: real)
    ensures Sum(Mat(Vec(Lean(dt, Lean(dt, p.r0.a, p.r1.a), Lean(dt, p.r0.b, p.r1.b)), Lean(dt, p.r0.b, p.r1.b), 0.0),
                    Vec(Lean(dt, p.r1.a, p.r1.b), p.r1.b, 0.0), ZERO), ProcessNoise(CV, q, dt))
         == CvCovariance(p, q, dt)
  {
  }

  /** F P F^T + Q of a constant-acceleration lane, entry by entry as the code computes it. */
  function CaCovariance(p: Mat, q: real, dt: real): Mat {
    var h := 0.5 * dt * dt;
    var f0, f1 := Row0(dt, h, p), Row1(dt, p);
    Mat(Vec(Mix(dt, h, f0.a, f0.b, f0.c) + Q00(q, dt), Lean(dt, f0.b, f0.c) + Q01(q, dt), f0.c + Q02(q, dt)),
        Vec(Mix(dt, h, f1.a, f1.b, f1.c) + Q01(q, dt), Lean(dt, f1.b, f1.c) + Q11(q, dt), f1.c + Q12(q, dt)),
        Vec(Mix(dt, h, p.r2.a, p.r2.b, p.r2.c) + Q02(q, dt), Lean(dt, p.r2.b, p.r2.c) + Q12(q, dt),
            p.r2.c + Q22(q, dt)))
  }

  lemma CaClosedForm(c: Config, b: Belief, dt: real)
    requires c.model.CA?
    ensures Propagated(c, b, dt).x == Moved(dt, 0.5 * dt * dt, dt, b.x)
    ensures Propagated(c, b, dt).p == CaCovariance(b.p, c.q, dt)
  {
    PropagatedEntries(c, b, dt);
  }

  lemma CvTop(p: Mat, q: real, dt: real, fp0: real, fp1: real)
    requires fp0 == Lean(dt, p.r0.a, p.r1.a) && fp1 == Lean(dt, p.r0.b, p.r1.b)
    ensures CvCovariance(p, q, dt).r0.a == Lean(dt, fp0, fp1) + Q11(q, dt)
  {
  }

  lemma CaLook(c: Config, b: Belief, dt: real, h: real, fp0: real, fp1: real, fp2: real)
    requires c.model.CA? && h == 0.5 * dt * dt && Row0(dt, h, b.p) == Vec(fp0, fp1, fp2)
    ensures Propagated(c, b, dt).x.a == Mix(dt, h, b.x.a, b.x.b, b.x.c)
    ensures Propagated(c, b, dt).p.r0.a == Mix(dt, h, fp0, fp1, fp2) + Q00(c.q, dt)
  {
    CaClosedForm(c, b, dt);
  }

  /** The covariance half of a constant-velocity propagation, in place. */
  method AdvanceCV(p: array<real>, pb: nat, q: real, dt: real)
    requires pb + 4 <= p.Length
    modifies p
    ensures LaneMat(p[..], pb, 2) == CvCovariance(old(LaneMat(p[..], pb, 2)), q, dt)
    ensures forall k :: 0 <= k < p.Length && !(pb <= k < pb + 4) ==> p[k] == old(p[k])
  {
    var p00, p01, p10, p11 := p[pb], p[pb + 1], p[pb + 2], p[pb + 3];
    var fp00, fp01 := Lean(dt, p00, p10), Lean(dt, p01, p11);
    p[pb] := Lean(dt, fp00, fp01) + Q11(q, dt);
    p[pb + 1] := fp01 + Q12(q, dt);
    p[pb + 2] := Lean(dt, p10, p11) + Q12(q, dt);
    p[pb + 3] := p11 + Q22(q, dt);
  }

  /** The covariance half of a constant-acceleration propagation, in place. */
  method AdvanceCA(p: array<real>, pb: nat, q: real, dt: real)
    requires pb + 9 <= p.Length
    modifies p
    ensures LaneMat(p[..], pb, 3) == CaCovariance(old(LaneMat(p[..], pb, 3)), q, dt)
    ensures forall k :: 0 <= k < p.Length && !(pb <= k < pb + 9) ==> p[k] == old(p[k])
  {
    var h := 0.5 * dt * dt;
    var p00, p01, p02 := p[pb], p[pb + 1], p[pb + 2];
    var p10, p11, p12 := p[pb + 3], p[pb + 4], p[pb + 5];
    var p20, p21, p22 := p[pb + 6], p[pb + 7], p[pb + 8];
    var fp00, fp01, fp02 := Mix(dt, h, p00, p10, p20), Mix(dt, h, p01, p11, p21), Mix(dt, h, p02, p12, p22);
    var fp10, fp11, fp12 := Lean(dt, p10, p20), Lean(dt, p11, p21), Lean(dt, p12, p22);
    p[pb] := Mix(dt, h, fp00, fp01, fp02) + Q00(q, dt);
    p[pb + 1] := Lean(dt, fp01, fp02) + Q01(q, dt);
    p[pb + 2] := fp02 + Q02(q, dt);
    p[pb + 3] := Mix(dt, h, fp10, fp11, fp12) + Q01(q, dt);
    p[pb + 4] := Lean(dt, fp11, fp12) + Q11(q, dt);
    p[pb + 5] := fp12 + Q12(q, dt);
    p[pb + 6] := Mix(dt, h, p20, p21, p22) + Q02(q, dt);
    p[pb + 7] := Lean(dt, p21, p22) + Q12(q, dt);
    p[pb + 8] := p22 + Q22(q, dt);
  }

  // The four loops of a scalar update

  /** K[i] = P[i][idx] / S */
  method ComputeGain(p: array<real>, base: nat, m: nat, idx: nat, s: real, gain: array<real>)
    requires 2 <= m <= 3 && idx < m && base + m * m <= p.Length && gain.Length == m && gain != p && s != 0.0
    modifies gain
    ensures forall k :: 0 <= k < m ==> gain[k] == LaneMat(p[..], base, m).At(k, idx) / s
  {
    for i := 0 to m
      invariant forall k :: 0 <= k < i ==> gain[k] == LaneMat(p[..], base, m).At(k, idx) / s
    {
      LaneMatAt(p[..], base, m, i, idx);
      gain[i] := p[Cell(base, m, i, idx)] / s;
    }
  }

  /** x[i] += K[i] y */
  method MoveMean(x: array<real>, base: nat, m: nat, gain: array<real>, y: real)
    requires base + m <= x.Length && gain.Length == m && gain != x
    modifies x
    ensures forall k :: 0 <= k < m ==> x[base + k] == Cut(old(x[base + k]), gain[k], -y)
    ensures forall k :: 0 <= k < x.Length && !(base <= k < base + m) ==> x[k] == old(x[k])
  {
    for i := 0 to m
      invariant forall k :: 0 <= k < i ==> x[base + k] == Cut(old(x[base + k]), gain[k], -y)
      invariant forall k :: 0 <= k < x.Length && !(base <= k < base + i) ==> x[k] == old(x[k])
    {
      x[base + i] := x[base + i] + gain[i] * y;
    }
  }

  /** Row idx of P, kept aside because the update below overwrites it. */
  method CopyRow(p: array<real>, base: nat, m: nat, idx: nat, row: array<real>)
    requires 2 <= m <= 3 && idx < m && base + m * m <= p.Length && row.Length == m && row != p
    modifies row
    ensures forall k :: 0 <= k < m ==> row[k] == LaneMat(p[..], base, m).At(idx, k)
  {
    for j := 0 to m
      invariant forall k :: 0 <= k < j ==> row[k] == LaneMat(p[..], base, m).At(idx, k)
    {
      LaneMatAt(p[..], base, m, idx, j);
      row[j] := p[Cell(base, m, idx, j)];
    }
  }

  /** One row: P[i][j] -= k row[j] */
  method SubtractRow(p: array<real>, start: nat, k: real, row: array<real>)
    requires start + row.Length <= p.Length && row != p
    modifies p
    ensures forall j :: 0 <= j < row.Length ==> p[start + j] == Cut(old(p[start + j]), k, row[j])
    ensures forall j :: 0 <= j < p.Length && !(start <= j < start + row.Length) ==> p[j] == old(p[j])
  {
    for j := 0 to row.Length
      invariant forall l :: 0 <= l < j ==> p[start + l] == Cut(old(p[start + l]), k, row[l])
      invariant forall l :: 0 <= l < p.Length && !(start <= l < start + j) ==> p[l] == old(p[l])
    {
      p[start + j] := p[start + j] - k * row[j];
    }
  }

  /** P[i][j] -= K[i] row[j] */
  method SubtractOuter(p: array<real>, base: nat, m: nat, gain: array<real>, row: array<real>)
    requires 2 <= m <= 3 && base + m * m <= p.Length && gain.Length == row.Length == m && gain != p && row != p
    modifies p
    ensures forall j, k :: 0 <= j < m && 0 <= k < m
              ==> LaneMat(p[..], base, m).At(j, k) == Cut(old(LaneMat(p[..], base, m)).At(j, k), gain[j], row[k])
    ensures forall k :: 0 <= k < p.Length && !(base <= k < base + m * m) ==> p[k] == old(p[k])
  {
    for i := 0 to m
      invariant forall k :: 0 <= k < p.Length && !(base <= k < base + m * m) ==> p[k] == old(p[k])
      invariant forall j, k :: 0 <= j < i && 0 <= k < m
                  ==> LaneMat(p[..], base, m).At(j, k) == Cut(old(LaneMat(p[..], base, m)).At(j, k), gain[j], row[k])
      invariant forall j, k :: i <= j < m && 0 <= k < m
                  ==> LaneMat(p[..], base, m).At(j, k) == old(LaneMat(p[..], base, m)).At(j, k)
    {
      CellBound(base, m, i, 0);
      CellBound(base, m, i, m - 1);
      ghost var was := p[..];
      SubtractRow(p, Cell(base, m, i, 0), gain[i], row);
      RowReplaced(was, p[..], base, m, i, gain[i], row[..]);
    }
  }

  lemma RowReplaced(was: seq<real>, ps: seq<real>, base: nat, m: nat, i: nat, k: real, row: seq<real>)
    requires 2 <= m <= 3 && i < m && |row| == m && |ps| == |was| && base + m * m <= |ps|
    requires Cell(base, m, i, 0) + m <= |ps|
    requires forall j :: 0 <= j < m ==> ps[Cell(base, m, i, 0) + j] == Cut(was[Cell(base, m, i, 0) + j], k, row[j])
    requires forall j :: 0 <= j < |ps| && !(Cell(base, m, i, 0) <= j < Cell(base, m, i, 0) + m) ==> ps[j] == was[j]
    ensures forall l :: 0 <= l < m ==> LaneMat(ps, base, m).At(i, l) == Cut(LaneMat(was, base, m).At(i, l), k, row[l])
    ensures forall j, l :: 0 <= j < m && j != i && 0 <= l < m
              ==> LaneMat(ps, base, m).At(j, l) == LaneMat(was, base, m).At(j, l)
  {
    forall j, l | 0 <= j < m && 0 <= l < m
      ensures j == i ==> LaneMat(ps, base, m).At(j, l) == Cut(LaneMat(was, base, m).At(j, l), k, row[l])
      ensures j != i ==> LaneMat(ps, base, m).At(j, l) == LaneMat(was, base, m).At(j, l)
    {
      LaneMatAt(ps, base, m, j, l);
      LaneMatAt(was, base, m, j, l);
      RowsApart(base, m, i, j, l);
    }
  }

  lemma RowsApart(base: nat, m: nat, i: nat, j: nat, l: nat)
    requires 2 <= m <= 3 && i < m && j < m && l < m
    ensures j == i ==> Cell(base, m, j, l) == Cell(base, m, i, 0) + l
    ensures j != i ==> !(Cell(base, m, i, 0) <= Cell(base, m, j, l) < Cell(base, m, i, 0) + m)
  {
    if m == 2 {
    } else {
    }
  }

  /** One lane's belief moves on by its own sample. */
  ghost predicate StepsTo(c: Config, b: Belief, dt: real, z: Sample, b': Belief) {
    c.Valid() && Sound(c.model, b) && b' == Fused(c, Advanced(c, b, dt), z)
  }

  class StatePredictor {
    const laneCount: nat
    const c: Config
    const m: nat
    const x: array<real>
    const p: array<real>
    const gain: array<real>
    const row: array<real>
    var seeded: bool
    var lastProducerNs: real

    predicate Shaped()
    {
      && c.Valid() && m == c.model.Order()
      && x.Length == Base(laneCount, m) && p.Length == Base(laneCount, m * m)
      && gain.Length == row.Length == m
      && x != p && x != gain && x != row && p != gain && p != row && gain != row
    }

    function BeliefAt(i: nat): Belief
      requires Shaped() && i < laneCount
      reads x, p
    {
      BaseBound(i, laneCount, m);
      BaseBound(i, laneCount, m * m);
      Belief(LaneVec(x[..], Base(i, m), m), LaneMat(p[..], Base(i, m * m), m))
    }

    ghost predicate Valid()
      reads this, x, p
    {
      Shaped() && (seeded ==> forall i :: 0 <= i < laneCount ==> Sound(c.model, BeliefAt(i)))
    }

    /** What lane i has lived through so far. */
    function TrackAt(i: nat): Track
      requires Shaped() && i < laneCount
      reads this, x, p
    {
      if seeded then Tracking(BeliefAt(i), lastProducerNs) else Cold
    }

    constructor (laneCount: nat, c: Config)
      requires laneCount > 0 && c.Valid()
      ensures Valid() && fresh(x) && fresh(p) && fresh(gain) && fresh(row)
      ensures this.laneCount == laneCount && this.c == c && !seeded
    {
      this.laneCount, this.c, this.m := laneCount, c, c.model.Order();
      x := new real[Base(laneCount, c.model.Order())](_ => 0.0);
      p := new real[Base(laneCount, c.model.Order() * c.model.Order())](_ => 0.0);
      gain := new real[c.model.Order()](_ => 0.0);
      row := new real[c.model.Order()](_ => 0.0);
      seeded, lastProducerNs := false, 0.0;
    }

    method Reset()
      requires Valid()
      modifies this, x, p
      ensures Valid() && forall i :: 0 <= i < laneCount ==> TrackAt(i) == Cold
    {
      seeded, lastProducerNs := false, 0.0;
      for i := 0 to x.Length
        invariant !seeded
      {
        x[i] := 0.0;
      }
      for i := 0 to p.Length
        invariant !seeded
      {
        p[i] := 0.0;
      }
    }

    /** Only lane i has changed. */
    twostate predicate OnlyLane(i: nat)
      requires Shaped()
      reads x, p
    {
      forall j :: 0 <= j < laneCount && j != i ==> BeliefAt(j) == old(BeliefAt(j))
    }

    twostate lemma OtherLanes(i: nat)
      requires Shaped() && i < laneCount
      requires forall k :: 0 <= k < x.Length && !(Base(i, m) <= k < Base(i, m) + m) ==> x[k] == old(x[k])
      requires forall k :: 0 <= k < p.Length && !(Base(i, m * m) <= k < Base(i, m * m) + m * m) ==> p[k] == old(p[k])
      ensures OnlyLane(i)
    {
      forall j | 0 <= j < laneCount && j != i ensures BeliefAt(j) == old(BeliefAt(j)) {
        BaseBound(j, laneCount, m);
        BaseBound(j, laneCount, m * m);
        BaseBound(j, i, m);
        BaseBound(j, i, m * m);
        BaseBound(i, j, m);
        BaseBound(i, j, m * m);
      }
    }

    /** One scalar measurement update of one lane; its division is by a positive number. */
    method UpdateScalar(lane: nat, idx: nat, z: real, r: real)
      requires Shaped() && lane < laneCount && idx < m && r > 0.0 && Sound(c.model, BeliefAt(lane))
      modifies x, p, gain, row
      ensures BeliefAt(lane) == Measured(c.model, old(BeliefAt(lane)), idx, Some(z), r)
      ensures OnlyLane(lane)
    {
      BaseBound(lane, laneCount, m);
      BaseBound(lane, laneCount, m * m);
      var xb, pb := Base(lane, m), Base(lane, m * m);
      ghost var b := BeliefAt(lane);
      LaneMatAt(p[..], pb, m, idx, idx);
      LaneVecAt(x[..], xb, m, idx);
      InnovationPositive(c.model, b, idx, r);
      var s := p[Cell(pb, m, idx, idx)] + r;
      var y := z - x[xb + idx];
      ComputeGain(p, pb, m, idx, s, gain);
      MoveMean(x, xb, m, gain, y);
      CopyRow(p, pb, m, idx, row);
      SubtractOuter(p, pb, m, gain, row);
      OtherLanes(lane);
      forall j | 0 <= j < m ensures BeliefAt(lane).x.At(j) == Cut(b.x.At(j), gain[j], b.x.At(idx) - z) {
        LaneVecAt(x[..], xb, m, j);
        LaneVecAt(old(x[..]), xb, m, j);
      }
      UpdatedCells(c.model, b, BeliefAt(lane), idx, z, r, gain[..]);
    }

    method PropagateCV(lane: nat, dt: real)
      requires Shaped() && c.model.CV? && lane < laneCount
      modifies x, p
      ensures BeliefAt(lane) == Propagated(c, old(BeliefAt(lane)), dt)
      ensures OnlyLane(lane)
    {
      BaseBound(lane, laneCount, m);
      BaseBound(lane, laneCount, m * m);
      var xb, pb := Base(lane, m), Base(lane, m * m);
      ghost var b := BeliefAt(lane);
      x[xb] := Lean(dt, x[xb], x[xb + 1]);
      AdvanceCV(p, pb, c.q, dt);
      OtherLanes(lane);
      assert m == 2 && m * m == 4;
      assert BeliefAt(lane).x == Vec(Lean(dt, b.x.a, b.x.b), b.x.b, 0.0);
      assert BeliefAt(lane).p == CvCovariance(b.p, c.q, dt);
      CvClosedForm(c, b, dt);
    }

    method PropagateCA(lane: nat, dt: real)
      requires Shaped() && c.model.CA? && lane < laneCount
      modifies x, p
      ensures BeliefAt(lane) == Propagated(c, old(BeliefAt(lane)), dt)
      ensures OnlyLane(lane)
    {
      BaseBound(lane, laneCount, m);
      BaseBound(lane, laneCount, m * m);
      var xb, pb := Base(lane, m), Base(lane, m * m);
      ghost var b := BeliefAt(lane);
      var h := 0.5 * dt * dt;
      var x0, x1, x2 := x[xb], x[xb + 1], x[xb + 2];
      x[xb] := Mix(dt, h, x0, x1, x2);
      x[xb + 1] := Lean(dt, x1, x2);
      AdvanceCA(p, pb, c.q, dt);
      OtherLanes(lane);
      CaClosedForm(c, b, dt);
    }

    /** Lane i of the caller's frame. */
    static function SampleAt(i: nat, position: array<real>, velocity: array?<real>, acceleration: array?<real>): Sample
      requires Covers(i + 1, position, velocity, acceleration)
      reads position, velocity, acceleration
    {
      Sample(position[i], if velocity != null then Some(velocity[i]) else None,
             if acceleration != null then Some(acceleration[i]) else None)
    }

    /** The length checks; a call that fails one throws before it changes anything. */
    static predicate Covers(n: nat, position: array<real>, velocity: array?<real>, acceleration: array?<real>) {
      && n <= position.Length
      && (velocity != null ==> n <= velocity.Length)
      && (acceleration != null ==> n <= acceleration.Length)
    }

    predicate Private(a: array?<real>) {
      a == x || a == p || a == gain || a == row
    }

    method SeedLane(i: nat, z: Sample)
      requires Shaped() && i < laneCount
      modifies x, p
      ensures BeliefAt(i) == Seeded(c, z) && OnlyLane(i)
    {
      BaseBound(i, laneCount, m);
      BaseBound(i, laneCount, m * m);
      var xb, pb := Base(i, m), Base(i, m * m);
      x[xb] := z.position;
      x[xb + 1] := OrZero(z.velocity);
      if m == 3 {
        x[xb + 2] := OrZero(z.acceleration);
      }
      for k := 0 to m * m
        invariant forall j :: pb <= j < pb + k ==> p[j] == 0.0
        invariant forall j :: 0 <= j < p.Length && !(pb <= j < pb + m * m) ==> p[j] == old(p[j])
        invariant forall j :: 0 <= j < x.Length && !(xb <= j < xb + m) ==> x[j] == old(x[j])
        invariant x[xb] == z.position && x[xb + 1] == OrZero(z.velocity)
        invariant m == 3 ==> x[xb + 2] == OrZero(z.acceleration)
      {
        p[pb + k] := 0.0;
      }
      if m == 3 {
        p[pb], p[pb + 4], p[pb + 8] := c.p0, c.p0, c.p0;
      } else {
        p[pb], p[pb + 3] := c.p0, c.p0;
      }
      OtherLanes(i);
    }

    method AdvanceLane(i: nat, dt: real)
      requires Shaped() && i < laneCount && Sound(c.model, BeliefAt(i))
      modifies x, p
      ensures BeliefAt(i) == Advanced(c, old(BeliefAt(i)), dt) && OnlyLane(i)
    {
      if dt > 0.0 {
        if m == 3 {
          PropagateCA(i, dt);
        } else {
          PropagateCV(i, dt);
        }
      }
    }

    /** A component that was not stamped, or that the model lacks, is skipped. */
    method MeasureLane(i: nat, idx: nat, z: Option<real>, r: real)
      requires Shaped() && i < laneCount && Sound(c.model, BeliefAt(i)) && idx < 3 && r > 0.0
      modifies x, p, gain, row
      ensures BeliefAt(i) == Measured(c.model, old(BeliefAt(i)), idx, z, r) && OnlyLane(i)
    {
      if z.Some? && idx < m {
        UpdateScalar(i, idx, z.value, r);
      }
    }

    method IngestLane(i: nat, dt: real, z: Sample)
      requires Shaped() && i < laneCount && Sound(c.model, BeliefAt(i))
      modifies x, p, gain, row
      ensures BeliefAt(i) == Fused(c, Advanced(c, old(BeliefAt(i)), dt), z) && OnlyLane(i)
    {
      AdvanceLane(i, dt);
      MeasureLane(i, 0, Some(z.position), c.rp);
      MeasureLane(i, 1, z.velocity, c.rv);
      MeasureLane(i, 2, z.acceleration, c.ra);
    }

    method SeedAll(position: array<real>, velocity: array?<real>, acceleration: array?<real>)
      requires Shaped() && Covers(laneCount, position, velocity, acceleration)
      requires !Private(position) && !Private(velocity) && !Private(acceleration)
      modifies x, p
      ensures forall i :: 0 <= i < laneCount ==>
                BeliefAt(i) == Seeded(c, SampleAt(i, position, velocity, acceleration))
    {
      for i := 0 to laneCount
        invariant forall j :: 0 <= j < i ==> BeliefAt(j) == Seeded(c, SampleAt(j, position, velocity, acceleration))
      {
        SeedLane(i, SampleAt(i, position, velocity, acceleration));
      }
    }

    ghost function Beliefs(): (bs: seq<Belief>)
      requires Shaped()
      reads x, p
      ensures |bs| == laneCount && forall i :: 0 <= i < laneCount ==> bs[i] == BeliefAt(i)
    {
      seq(laneCount, i requires 0 <= i < laneCount reads x, p => BeliefAt(i))
    }

    method IngestAll(dt: real, position: array<real>, velocity: array?<real>, acceleration: array?<real>,
                     ghost was: seq<Belief>, ghost goal: seq<Belief>)
      requires Shaped() && Covers(laneCount, position, velocity, acceleration)
      requires !Private(position) && !Private(velocity) && !Private(acceleration)
      requires |was| == |goal| == laneCount && forall i :: 0 <= i < laneCount ==> BeliefAt(i) == was[i]
      requires forall i :: 0 <= i < laneCount ==>
                 StepsTo(c, was[i], dt, SampleAt(i, position, velocity, acceleration), goal[i])
      modifies x, p, gain, row
      ensures forall i :: 0 <= i < laneCount ==> BeliefAt(i) == goal[i]
    {
      for i := 0 to laneCount
        invariant forall j :: 0 <= j < laneCount ==> BeliefAt(j) == if j < i then goal[j] else was[j]
      {
        IngestLane(i, dt, SampleAt(i, position, velocity, acceleration));
      }
    }

    /** `ingest`; false stands for the thrown length error. */
    method Ingest(ns: real, position: array<real>, velocity: array?<real>, acceleration: array?<real>)
      returns (ok: bool)
      requires Valid() && !Private(position) && !Private(velocity) && !Private(acceleration)
      modifies this, x, p, gain, row
      ensures Valid()
      ensures ok == (laneCount <= position.Length && (velocity != null ==> laneCount <= velocity.Length)
                     && (acceleration != null ==> laneCount <= acceleration.Length))
      ensures !ok ==> seeded == old(seeded) && lastProducerNs == old(lastProducerNs)
                      && x[..] == old(x[..]) && p[..] == old(p[..])
      ensures ok ==> forall i :: 0 <= i < laneCount ==>
                TrackAt(i) == Ingested(c, old(TrackAt(i)), ns,
                                       Sample(position[i], if velocity != null then Some(velocity[i]) else None,
                                              if acceleration != null then Some(acceleration[i]) else None))
    {
      ok := Covers(laneCount, position, velocity, acceleration);
      if !ok {
        return;
      }
      if !seeded {
        SeedAll(position, velocity, acceleration);
        lastProducerNs, seeded := ns, true;
        return;
      }
      var dt := Elapsed(lastProducerNs, ns);
      lastProducerNs := ns;
      ghost var goal := seq(laneCount, i requires 0 <= i < laneCount && Sound(c.model, BeliefAt(i))
        reads x, p, position, velocity, acceleration
        => Fused(c, Advanced(c, BeliefAt(i), dt), SampleAt(i, position, velocity, acceleration)));
      IngestAll(dt, position, velocity, acceleration, Beliefs(), goal);
    }

    /** What lane i is predicted to be at ns. */
    ghost function Ahead(i: nat, ns: real): (real, real)
      requires Shaped() && i < laneCount
      reads this, x, p
    {
      Predicted(c, TrackAt(i), ns)
    }

    /** `predictInto`: the mean and variance that propagating to ns would leave, without touching the filter. In one
        array for both, the variances are what remains. */
    method PredictInto(ns: real, outValue: array<real>, outVariance: array?<real>) returns (ok: bool)
      requires Valid() && !Private(outValue) && !Private(outVariance)
      modifies outValue, outVariance
      ensures ok == (laneCount <= outValue.Length && (outVariance != null ==> laneCount <= outVariance.Length))
      ensures ok && outVariance != outValue ==> forall i :: 0 <= i < laneCount ==> outValue[i] == Ahead(i, ns).0
      ensures ok && outVariance != null ==> forall i :: 0 <= i < laneCount ==> outVariance[i] == Ahead(i, ns).1
      ensures outValue[if ok then laneCount else 0..] == old(outValue[if ok then laneCount else 0..])
      ensures outVariance != null ==>
                outVariance[if ok then laneCount else 0..] == old(outVariance[if ok then laneCount else 0..])
    {
      ok := laneCount <= outValue.Length && (outVariance != null ==> laneCount <= outVariance.Length);
      if !ok {
        return;
      }
      ghost var ahead := seq(laneCount, i requires 0 <= i < laneCount reads this, x, p => Ahead(i, ns));
      PredictLanes(ns, outValue, outVariance, ahead);
    }

    static method WriteLane(i: nat, value: real, variance: real, outValue: array<real>, outVariance: array?<real>)
      requires i < outValue.Length && (outVariance != null ==> i < outVariance.Length)
      modifies outValue, outVariance
      ensures outValue[i] == if outVariance == outValue then variance else value
      ensures outVariance != null ==> outVariance[i] == variance
      ensures forall j :: 0 <= j < outValue.Length && j != i ==> outValue[j] == old(outValue[j])
      ensures outVariance != null ==>
                forall j :: 0 <= j < outVariance.Length && j != i ==> outVariance[j] == old(outVariance[j])
    {
      outValue[i] := value;
      if outVariance != null {
        outVariance[i] := variance;
      }
    }

    /** The loop of `predictInto`. */
    method PredictLanes(ns: real, outValue: array<real>, outVariance: array?<real>, ghost ahead: seq<(real, real)>)
      requires Valid() && !Private(outValue) && !Private(outVariance)
      requires laneCount <= outValue.Length && (outVariance != null ==> laneCount <= outVariance.Length)
      requires |ahead| == laneCount && forall i :: 0 <= i < laneCount ==> ahead[i] == Ahead(i, ns)
      modifies outValue, outVariance
      ensures outVariance != outValue ==> forall i :: 0 <= i < laneCount ==> outValue[i] == ahead[i].0
      ensures outVariance != null ==> forall i :: 0 <= i < laneCount ==> outVariance[i] == ahead[i].1
      ensures outValue[laneCount..] == old(outValue[laneCount..])
      ensures outVariance != null ==> outVariance[laneCount..] == old(outVariance[laneCount..])
    {
      for i := 0 to laneCount
        invariant outVariance != outValue ==> forall j :: 0 <= j < i ==> outValue[j] == ahead[j].0
        invariant outVariance != null ==> forall j :: 0 <= j < i ==> outVariance[j] == ahead[j].1
        invariant forall j :: laneCount <= j < outValue.Length ==> outValue[j] == old(outValue[j])
        invariant outVariance != null ==>
                    forall j :: laneCount <= j < outVariance.Length ==> outVariance[j] == old(outVariance[j])
      {
        var value, variance := Look(i, ns);
        WriteLane(i, value, variance, outValue, outVariance);
      }
    }

    /** One lane of `predictInto` and `predictLane`: only the first row of F P F^T + Q is formed. */
    method Look(i: nat, ns: real) returns (value: real, variance: real)
      requires Shaped() && i < laneCount && (seeded ==> Padded(c.model, BeliefAt(i)))
      ensures value == Ahead(i, ns).0 && variance == Ahead(i, ns).1
      ensures !seeded ==> value == 0.0 && variance == c.p0
    {
      if !seeded {
        return 0.0, c.p0;
      }
      BaseBound(i, laneCount, m);
      BaseBound(i, laneCount, m * m);
      var xb, pb := Base(i, m), Base(i, m * m);
      var dt := Elapsed(lastProducerNs, ns);
      ghost var b := BeliefAt(i);
      if m == 3 {
        var h := 0.5 * dt * dt;
        value := Mix(dt, h, x[xb], x[xb + 1], x[xb + 2]);
        var fp0 := Mix(dt, h, p[pb], p[pb + 3], p[pb + 6]);
        var fp1 := Mix(dt, h, p[pb + 1], p[pb + 4], p[pb + 7]);
        var fp2 := Mix(dt, h, p[pb + 2], p[pb + 5], p[pb + 8]);
        variance := Mix(dt, h, fp0, fp1, fp2) + Q00(c.q, dt);
        CaLook(c, b, dt, h, fp0, fp1, fp2);
      } else {
        value := Lean(dt, x[xb], x[xb + 1]);
        var fp0, fp1 := Lean(dt, p[pb], p[pb + 2]), Lean(dt, p[pb + 1], p[pb + 3]);
        variance := Lean(dt, fp0, fp1) + Q11(c.q, dt);
        assert b.p.r0.a == p[pb] && b.p.r0.b == p[pb + 1] && b.p.r1.a == p[pb + 2] && b.p.r1.b == p[pb + 3];
        CvTop(b.p, c.q, dt, fp0, fp1);
        CvClosedForm(c, b, dt);
      }
    }
  }
}
