/** A caller that takes steps while nothing else moves: its state is iterated by one function, and its calls are the
    stretches between two states of rest. */
module Polling {

  function Iterate<S>(f: S -> S, s: S, n: nat): S {
    if n == 0 then s else f(Iterate(f, s, n - 1))
  }

  lemma {:induction false} Joins<S>(f: S -> S, s: S, m: nat, n: nat)
    ensures Iterate(f, Iterate(f, s, m), n) == Iterate(f, s, m + n)
    decreases n
  {
    if n > 0 {
      Joins(f, s, m, n - 1);
    }
  }

  /** The next n steps are one call: it returns after the last of them and not before. */
  ghost predicate Call<S>(f: S -> S, rest: S -> bool, s: S, n: nat) {
    n > 0 && rest(Iterate(f, s, n)) && forall i :: 0 < i < n ==> !rest(Iterate(f, s, i))
  }

  /** A caller: between calls it is `quiet`; if something is `waiting` a call gets one thing, and otherwise it changes
      nothing. */
  datatype Caller<!S> = Caller(f: S -> S, rest: S -> bool, quiet: S -> bool, waiting: S -> bool, got: S -> int) {
    ghost predicate Answers(s: S, s': S) {
      quiet(s') && if waiting(s) then got(s') == got(s) + 1 else s' == s
    }

    ghost predicate Serves(s: S) {
      exists n: nat :: Call(f, rest, s, n) && Answers(s, Iterate(f, s, n))
    }
  }

  ghost predicate Good<S(!new)>(x: Caller<S>) {
    (forall s :: x.quiet(s) ==> x.Serves(s)) && (forall s :: x.got(s) <= x.got(x.f(s)))
  }

  lemma {:induction false} GotGrows<S(!new)>(x: Caller<S>, s: S, n: nat)
    requires Good(x)
    ensures x.got(s) <= x.got(Iterate(x.f, s, n))
    decreases n
  {
    if n > 0 {
      GotGrows(x, s, n - 1);
    }
  }

  lemma {:induction false} NotSooner<S>(f: S -> S, rest: S -> bool, s: S, n0: nat, n: nat)
    requires Call(f, rest, s, n0) && n > 0 && rest(Iterate(f, s, n))
    ensures n0 <= n
  {
  }

  lemma {:induction false} ACall<S(!new)>(x: Caller<S>, s: S) returns (n0: nat)
    requires Good(x) && x.quiet(s)
    ensures Call(x.f, x.rest, s, n0) && x.Answers(s, Iterate(x.f, s, n0))
  {
    assert x.Serves(s);
    n0 :| Call(x.f, x.rest, s, n0) && x.Answers(s, Iterate(x.f, s, n0));
  }

  lemma {:induction false} FirstCall<S(!new)>(x: Caller<S>, s: S, n: nat) returns (n0: nat, mid: S)
    requires Good(x) && x.quiet(s) && n > 0 && x.rest(Iterate(x.f, s, n))
    ensures 0 < n0 <= n && Call(x.f, x.rest, s, n0) && mid == Iterate(x.f, s, n0) && x.Answers(s, mid)
    ensures Iterate(x.f, mid, n - n0) == Iterate(x.f, s, n)
  {
    n0 := ACall(x, s);
    mid := Iterate(x.f, s, n0);
    NotSooner(x.f, x.rest, s, n0, n);
    Joins(x.f, s, n0, n - n0);
  }

  lemma {:induction false} NothingWaiting<S(!new)>(x: Caller<S>, s: S, n: nat)
    requires Good(x) && x.quiet(s) && !x.waiting(s) && x.rest(Iterate(x.f, s, n))
    ensures Iterate(x.f, s, n) == s
    decreases n
  {
    if n > 0 {
      var n0, mid := FirstCall(x, s, n);
      NothingWaiting(x, s, n - n0);
    }
  }

  lemma {:induction false} SomethingWaiting<S(!new)>(x: Caller<S>, s: S, n: nat)
    requires Good(x) && x.quiet(s) && x.waiting(s) && n > 0 && x.rest(Iterate(x.f, s, n))
    ensures x.got(s) < x.got(Iterate(x.f, s, n))
  {
    var n0, mid := FirstCall(x, s, n);
    GotGrows(x, mid, n - n0);
  }

  /** Calls that got nothing have changed nothing. */
  lemma {:induction false} NothingGot<S(!new)>(x: Caller<S>, s: S, n: nat)
    requires Good(x) && x.quiet(s) && x.rest(Iterate(x.f, s, n)) && x.got(Iterate(x.f, s, n)) <= x.got(s)
    ensures Iterate(x.f, s, n) == s
  {
    if n > 0 {
      if x.waiting(s) {
        SomethingWaiting(x, s, n);
      } else {
        NothingWaiting(x, s, n);
      }
    }
  }

  /** Any number of calls that together got no more than one thing are as good as the first of them. */
  lemma {:induction false} OneIsEnough<S(!new)>(x: Caller<S>, s: S, n: nat) returns (n0: nat)
    requires Good(x) && x.quiet(s) && n > 0 && x.rest(Iterate(x.f, s, n))
    requires x.got(Iterate(x.f, s, n)) <= x.got(s) + 1
    ensures Call(x.f, x.rest, s, n0) && Iterate(x.f, s, n0) == Iterate(x.f, s, n)
  {
    var mid: S;
    n0, mid := FirstCall(x, s, n);
    if x.waiting(s) {
      NothingGot(x, mid, n - n0);
    } else {
      NothingWaiting(x, s, n);
    }
  }
}
