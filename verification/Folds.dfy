/** Folding a sequence of inputs into a state, one after the other. */
module Folds {

  function Fold<B, R>(f: (B, R) -> B, b: B, rs: seq<R>): B {
    if rs == [] then b else Fold(f, f(b, rs[0]), rs[1..])
  }

  lemma {:induction false} FoldMore<B, R>(f: (B, R) -> B, b: B, rs: seq<R>, ts: seq<R>)
    ensures Fold(f, b, rs + ts) == Fold(f, Fold(f, b, rs), ts)
    decreases |rs|
  {
    if rs == [] {
      assert rs + ts == ts;
    } else {
      FoldMore(f, f(b, rs[0]), rs[1..], ts);
      assert (rs + ts)[1..] == rs[1..] + ts;
    }
  }

  /** From an `ok` state, `good` inputs lead to `ok` states, and two of them may be swapped. */
  ghost predicate Commutes<B(!new), R(!new)>(f: (B, R) -> B, ok: B -> bool, good: R -> bool) {
    && (forall b, m :: ok(b) && good(m) ==> ok(f(b, m)))
    && (forall b, m, n :: ok(b) && good(m) && good(n) ==> f(f(b, m), n) == f(f(b, n), m))
  }

  ghost predicate All<R>(good: R -> bool, rs: seq<R>) {
    forall i :: 0 <= i < |rs| ==> good(rs[i])
  }

  /** Input i can come first. */
  lemma {:induction false} ToFront<B(!new), R(!new)>(f: (B, R) -> B, ok: B -> bool, good: R -> bool,
                                                     b: B, rs: seq<R>, i: nat)
    requires Commutes(f, ok, good) && ok(b) && All(good, rs) && i < |rs|
    ensures Fold(f, b, rs) == Fold(f, f(b, rs[i]), rs[..i] + rs[i + 1..])
    decreases i
  {
    if i == 0 {
      assert rs[..0] + rs[1..] == rs[1..];
    } else {
      ToFront(f, ok, good, f(b, rs[0]), rs[1..], i - 1);
      Rejoined(rs, i);
      assert f(f(b, rs[0]), rs[i]) == f(f(b, rs[i]), rs[0]);
    }
  }

  lemma Rejoined<R>(rs: seq<R>, i: nat)
    requires 0 < i < |rs|
    ensures var others := rs[..i] + rs[i + 1..];
      others[0] == rs[0] && others[1..] == rs[1..][..i - 1] + rs[1..][i..]
  {
  }

  /** Where the first of ts is in rs, and what is left without it. */
  lemma TakeOut<R>(rs: seq<R>, ts: seq<R>) returns (i: nat)
    requires ts != [] && multiset(rs) == multiset(ts)
    ensures i < |rs| && rs[i] == ts[0] && multiset(rs[..i] + rs[i + 1..]) == multiset(ts[1..])
  {
    assert ts[0] in multiset(rs);
    i :| 0 <= i < |rs| && rs[i] == ts[0];
    assert rs == rs[..i] + ([rs[i]] + rs[i + 1..]) && ts == [ts[0]] + ts[1..];
    WithoutOne(rs[..i], ts[0], rs[i + 1..], ts[1..]);
  }

  lemma WithoutOne<R>(front: seq<R>, r: R, back: seq<R>, rest: seq<R>)
    requires multiset(front + ([r] + back)) == multiset([r] + rest)
    ensures multiset(front + back) == multiset(rest)
  {
    assert multiset(front) + (multiset{r} + multiset(back)) == multiset{r} + multiset(rest);
    forall x ensures multiset(front + back)[x] == multiset(rest)[x] {
      assert (multiset(front) + (multiset{r} + multiset(back)))[x] == (multiset{r} + multiset(rest))[x];
    }
  }

  /** So the order of the inputs does not matter. */
  lemma {:induction false} AnyOrder<B(!new), R(!new)>(f: (B, R) -> B, ok: B -> bool, good: R -> bool,
                                                      b: B, rs: seq<R>, ts: seq<R>)
    requires Commutes(f, ok, good) && ok(b) && All(good, rs) && multiset(rs) == multiset(ts)
    ensures Fold(f, b, rs) == Fold(f, b, ts)
    decreases |ts|
  {
    if ts == [] {
      assert |multiset(rs)| == 0;
    } else {
      var i := TakeOut(rs, ts);
      ToFront(f, ok, good, b, rs, i);
      AnyOrder(f, ok, good, f(b, ts[0]), rs[..i] + rs[i + 1..], ts[1..]);
    }
  }
}
