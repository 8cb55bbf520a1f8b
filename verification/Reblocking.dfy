/** Re-blocking as a function on values: serving a request of `count` samples from a partly used block and
    a stream of pulls, some of which find nothing. */
module Reblocking {

  /** What one `bridge.pull` does. */
  datatype Pull<T> = Empty | Frame(block: seq<T>)

  /** `lastPull` is how many samples had been written at the last pull that found a frame, or -1. */
  datatype Served<T> = Served(got: seq<T>, rest: seq<T>, tape: seq<Pull<T>>, frames: nat, lastPull: int)

  /** A request served sample by sample from `rest`, then from the pulls to come; the first pull that finds
      nothing ends it. */
  function Serve<T>(rest: seq<T>, tape: seq<Pull<T>>, count: nat): Served<T>
    decreases |tape|, count
  {
    if count == 0 then Served([], rest, tape, 0, -1)
    else if rest == [] then
      if tape == [] then Served([], [], [], 0, -1)
      else if tape[0].Empty? then Served([], [], tape[1..], 0, -1)
      else Pulled(Serve(tape[0].block, tape[1..], count))
    else After([rest[0]], Serve(rest[1..], tape, count - 1))
  }

  function Pulled<T>(s: Served<T>): Served<T> {
    s.(frames := s.frames + 1, lastPull := if s.lastPull < 0 then 0 else s.lastPull)
  }

  /** The same service with some samples handed out before it. */
  function After<T>(front: seq<T>, s: Served<T>): Served<T> {
    s.(got := front + s.got, lastPull := if s.lastPull < 0 then -1 else |front| + s.lastPull)
  }

  function Block<T>(p: Pull<T>): seq<T> {
    if p.Empty? then [] else p.block
  }

  /** All samples of all frames of a stretch of tape. */
  function Flatten<T>(tape: seq<Pull<T>>): seq<T> {
    if tape == [] then [] else Block(tape[0]) + Flatten(tape[1..])
  }

  function Frames<T>(tape: seq<Pull<T>>): nat {
    if tape == [] then 0 else (if tape[0].Empty? then 0 else 1) + Frames(tape[1..])
  }

  /** The pulls a request made. */
  function Used<T>(tape: seq<Pull<T>>, s: Served<T>): seq<Pull<T>>
    requires |s.tape| <= |tape|
  {
    tape[..|tape| - |s.tape|]
  }

  /** When the last pull that found a frame happened: as many samples into the request as were handed out or left over,
      less that frame's own. */
  lemma {:induction false} LastPullExact<T>(rest: seq<T>, tape: seq<Pull<T>>, count: nat, size: nat)
    requires forall i :: 0 <= i < |tape| && tape[i].Frame? ==> |tape[i].block| == size
    ensures var s := Serve(rest, tape, count);
      && (s.frames == 0 ==> s.lastPull == -1 && |s.got| + |s.rest| == |rest|)
      && (s.frames > 0 ==> s.lastPull >= 0 && s.lastPull + size == |s.got| + |s.rest|)
    decreases |tape|, count
  {
    if count == 0 {
    } else if rest == [] {
      if tape != [] && tape[0].Frame? {
        LastPullExact(tape[0].block, tape[1..], count, size);
      }
    } else {
      LastPullExact(rest[1..], tape, count - 1, size);
    }
  }

  lemma UsedStep<T>(tape: seq<Pull<T>>, left: seq<Pull<T>>)
    requires tape != [] && |left| < |tape| && left == tape[1..][|tape| - 1 - |left|..]
    ensures left == tape[|tape| - |left|..]
    ensures tape[..|tape| - |left|] == [tape[0]] + tape[1..][..|tape| - 1 - |left|]
    ensures Flatten(tape[..|tape| - |left|])
         == Block(tape[0]) + Flatten(tape[1..][..|tape| - 1 - |left|])
    ensures Frames(tape[..|tape| - |left|])
         == (if tape[0].Empty? then 0 else 1) + Frames(tape[1..][..|tape| - 1 - |left|])
  {
    var used := tape[..|tape| - |left|];
    assert used[0] == tape[0] && used[1..] == tape[1..][..|tape| - 1 - |left|];
  }

  /** Nothing is lost, repeated or reordered: what was handed out and what is left over are together what
      was there and what was pulled. */
  lemma {:induction false} ServeLossless<T>(rest: seq<T>, tape: seq<Pull<T>>, count: nat)
    ensures var s := Serve(rest, tape, count);
      && |s.tape| <= |tape| && s.tape == tape[|tape| - |s.tape|..] && |s.got| <= count
      && s.got + s.rest == rest + Flatten(Used(tape, s))
      && s.frames == Frames(Used(tape, s))
    decreases |tape|, count
  {
    if count == 0 {
    } else if rest == [] {
      if tape != [] && tape[0].Frame? {
        ServeLossless(tape[0].block, tape[1..], count);
        UsedStep(tape, Serve(tape[0].block, tape[1..], count).tape);
      }
    } else {
      ServeLossless(rest[1..], tape, count - 1);
      var s := Serve(rest[1..], tape, count - 1);
      Rejoin(rest, 1, s.got, s.rest, Flatten(Used(tape, s)));
      assert rest[..1] == [rest[0]];
    }
  }

  lemma Rejoin<T>(rest: seq<T>, k: nat, got: seq<T>, left: seq<T>, more: seq<T>)
    requires k <= |rest| && got + left == rest[k..] + more
    ensures (rest[..k] + got) + left == rest + more
  {
    assert (rest[..k] + got) + left == rest[..k] + (got + left);
    assert rest == rest[..k] + rest[k..];
  }

  /** A request comes up short exactly when its last pull found nothing; otherwise every pull found a frame. */
  lemma {:induction false} ShortOnlyWhenStarved<T>(rest: seq<T>, tape: seq<Pull<T>>, count: nat)
    ensures var s := Serve(rest, tape, count);
      && |s.tape| <= |tape|
      && (|s.got| < count ==> s.rest == [] && (s.tape == [] || Used(tape, s) != []))
      && (|s.got| < count && s.tape != [] ==> Used(tape, s)[|Used(tape, s)| - 1].Empty?)
      && (|s.got| == count ==> forall p :: p in Used(tape, s) ==> p.Frame?)
    decreases |tape|, count
  {
    ServeLossless(rest, tape, count);
    if count == 0 {
    } else if rest == [] {
      if tape != [] && tape[0].Frame? {
        ShortOnlyWhenStarved(tape[0].block, tape[1..], count);
        ServeLossless(tape[0].block, tape[1..], count);
        UsedStep(tape, Serve(tape[0].block, tape[1..], count).tape);
      }
    } else {
      ShortOnlyWhenStarved(rest[1..], tape, count - 1);
    }
  }

  /** What lies in `rest` can be handed out in one portion. */
  lemma {:induction false} Portion<T>(rest: seq<T>, tape: seq<Pull<T>>, k: nat, count: nat)
    requires k <= |rest| && k <= count
    ensures Serve(rest, tape, count) == After(rest[..k], Serve(rest[k..], tape, count - k))
    decreases k
  {
    var s := Serve(rest[k..], tape, count - k);
    if k == 0 {
      assert rest[0..] == rest && rest[..0] + s.got == s.got;
    } else {
      Portion(rest[1..], tape, k - 1, count - 1);
      assert rest[1..][k - 1..] == rest[k..];
      assert [rest[0]] + rest[1..][..k - 1] == rest[..k];
      assert [rest[0]] + (rest[1..][..k - 1] + s.got) == rest[..k] + s.got;
    }
  }

  /** `whole` is what `s` and then `t` amount to. */
  predicate Joins<T(==)>(whole: Served<T>, s: Served<T>, t: Served<T>) {
    && whole.got == s.got + t.got && whole.rest == t.rest && whole.tape == t.tape
    && whole.frames == s.frames + t.frames
  }

  lemma JoinsAfter<T>(front: seq<T>, whole: Served<T>, s: Served<T>, t: Served<T>)
    requires Joins(whole, s, t)
    ensures Joins(After(front, whole), After(front, s), t)
  {
    assert front + (s.got + t.got) == (front + s.got) + t.got;
  }

  /** Where a request is cut in two makes no difference as long as the first part is met in full. */
  lemma {:induction false} CutsDoNotMatter<T>(rest: seq<T>, tape: seq<Pull<T>>, a: nat, b: nat)
    requires |Serve(rest, tape, a).got| == a
    ensures var s := Serve(rest, tape, a); Joins(Serve(rest, tape, a + b), s, Serve(s.rest, s.tape, b))
    decreases |tape|, a
  {
    if a == 0 {
      assert Serve(rest, tape, b).got == [] + Serve(rest, tape, b).got;
    } else if rest == [] {
      if tape != [] && tape[0].Frame? {
        CutsDoNotMatter(tape[0].block, tape[1..], a, b);
      }
    } else {
      CutsDoNotMatter(rest[1..], tape, a - 1, b);
      var s := Serve(rest[1..], tape, a - 1);
      JoinsAfter([rest[0]], Serve(rest[1..], tape, a - 1 + b), s, Serve(s.rest, s.tape, b));
    }
  }

  // Whole sessions

  /** The outcome of a series of requests: what was handed out in all, and the counters kept meanwhile. */
  datatype Session<T> = Session(got: seq<T>, rest: seq<T>, tape: seq<Pull<T>>, frames: nat, emitted: nat, short: nat)

  function OneMore<T>(before: Session<T>, count: nat): Session<T> {
    var s := Serve(before.rest, before.tape, count);
    ServeLossless(before.rest, before.tape, count);
    Session(before.got + s.got, s.rest, s.tape, before.frames + s.frames,
            before.emitted + count, before.short + (count - |s.got|))
  }

  function Play<T>(tape: seq<Pull<T>>, counts: seq<nat>): Session<T> {
    if counts == [] then Session([], [], tape, 0, 0, 0)
    else OneMore(Play(tape, counts[..|counts| - 1]), counts[|counts| - 1])
  }

  lemma PlayMore<T>(tape: seq<Pull<T>>, counts: seq<nat>, count: nat)
    ensures Play(tape, counts + [count]) == OneMore(Play(tape, counts), count)
  {
    assert (counts + [count])[..|counts|] == counts;
  }

  predicate BlocksOf<T>(tape: seq<Pull<T>>, size: nat) {
    forall i :: 0 <= i < |tape| && tape[i].Frame? ==> |tape[i].block| == size
  }

  lemma {:induction false} FlattenSize<T>(tape: seq<Pull<T>>, size: nat)
    requires BlocksOf(tape, size)
    ensures |Flatten(tape)| == Frames(tape) * size
  {
    if tape != [] {
      FlattenSize(tape[1..], size);
      assert (1 + Frames(tape[1..])) * size == size + Frames(tape[1..]) * size;
    }
  }

  lemma Associates<T>(x: seq<T>, y: seq<T>, z: seq<T>)
    ensures x + (y + z) == (x + y) + z
  {
  }

  lemma {:induction false} FlattenAppend<T>(a: seq<Pull<T>>, b: seq<Pull<T>>)
    ensures Flatten(a + b) == Flatten(a) + Flatten(b) && Frames(a + b) == Frames(a) + Frames(b)
  {
    if a == [] {
      assert a + b == b;
    } else {
      FlattenAppend(a[1..], b);
      assert (a + b)[0] == a[0] && (a + b)[1..] == a[1..] + b;
      Associates(Block(a[0]), Flatten(a[1..]), Flatten(b));
    }
  }

  /** Over any series of requests and any pattern of empty pulls: the samples handed out are a prefix of all
      the samples pulled, the rest of them is what is still in the current block, and the counters agree. */
  lemma {:induction false} SessionLossless<T>(tape: seq<Pull<T>>, counts: seq<nat>, size: nat)
    requires BlocksOf(tape, size)
    ensures var s := Play(tape, counts);
      && |s.tape| <= |tape| && s.tape == tape[|tape| - |s.tape|..]
      && s.got + s.rest == Flatten(tape[..|tape| - |s.tape|])
      && s.frames == Frames(tape[..|tape| - |s.tape|])
      && s.frames * size == |s.got| + |s.rest|
      && s.emitted == |s.got| + s.short
    decreases |counts|
  {
    if counts == [] {
      assert tape[..0] == [];
    } else {
      var before := Play(tape, counts[..|counts| - 1]);
      SessionLossless(tape, counts[..|counts| - 1], size);
      SessionStep(tape, before, counts[|counts| - 1]);
    }
    var s := Play(tape, counts);
    FlattenSize(tape[..|tape| - |s.tape|], size);
  }

  lemma SessionStep<T>(tape: seq<Pull<T>>, before: Session<T>, count: nat)
    requires |before.tape| <= |tape| && before.tape == tape[|tape| - |before.tape|..]
    requires before.got + before.rest == Flatten(tape[..|tape| - |before.tape|])
    requires before.frames == Frames(tape[..|tape| - |before.tape|])
    ensures var s := Serve(before.rest, before.tape, count);
      && |s.tape| <= |tape| && s.tape == tape[|tape| - |s.tape|..]
      && (before.got + s.got) + s.rest == Flatten(tape[..|tape| - |s.tape|])
      && before.frames + s.frames == Frames(tape[..|tape| - |s.tape|])
  {
    var s := Serve(before.rest, before.tape, count);
    ServeLossless(before.rest, before.tape, count);
    var done, used := tape[..|tape| - |before.tape|], Used(before.tape, s);
    assert tape[..|tape| - |s.tape|] == done + used;
    FlattenAppend(done, used);
    Associates(before.got, s.got, s.rest);
    Associates(before.got, before.rest, Flatten(used));
  }
}
