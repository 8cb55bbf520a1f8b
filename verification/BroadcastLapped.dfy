/** Where SpmcRing's promises end: a reader that the producer overtakes by 2^31 tickets within one call. Stamps
    count two per ticket, so after 2^31 tickets a slot carries the same stamp again. Two runs of a ring of two
    slots and one reader: one delivers a torn frame, the other takes a frame 2^31 tickets newer for its own and
    counts nothing as lost. */
module BroadcastLapped {
  import opened Int32
  import opened Tickets
  import opened BroadcastRing
  import BroadcastWrap

  const TINY := Config(Wrapped, 2, 1, 2)
  const FIRST: Frame := [0, 0]
  const LATER: Frame := [1, 1]

  /** A set of states of the tiny ring that every step stays inside. */
  ghost predicate Closed(reached: State -> bool) {
    forall s, a :: reached(s) ==> StaysInside(reached, s, a)
  }

  ghost predicate StaysInside(reached: State -> bool, s: State, a: Action) {
    s.m.Shaped(TINY) && |s.l.outcomes| == 1 && reached(Next(TINY, s, a))
  }

  lemma Take(reached: State -> bool, s: State, a: Action) returns (s': State)
    requires Closed(reached) && reached(s)
    ensures s.m.Shaped(TINY) && |s.l.outcomes| == 1 && s' == Next(TINY, s, a) && reached(s')
  {
    assert StaysInside(reached, s, a);
    s' := Next(TINY, s, a);
  }

  /** The producer stands at x, the reader is r and has got o. */
  ghost predicate At(reached: State -> bool, s: State, x: Producer, r: Reader, o: Outcome) {
    reached(s) && Closed(reached) && s.m.producer == x && s.m.readers == [r] && s.l.outcomes == [o]
      && |s.m.gen| == |s.m.payload| == 2 && (forall i :: 0 <= i < 2 ==> |s.m.payload[i]| == 2)
  }

  lemma Numbers(n: nat)
    ensures Wrapped.Slot(ToInt32(n), 2) == n % 2
    ensures ToInt32(ToInt32(n) + 1) == ToInt32(n + 1)
    ensures ToInt32(Complete(ToInt32(n))) == ToInt32(Complete(n))
  {
    SlotExact(n, 1);
    assert Pow2(1) == 2;
    ToInt32Add(n, 1);
    BroadcastWrap.StampWraps(n);
  }

  // ----- one push -----

  lemma BeginPush(reached: State -> bool, s: State, r: Reader, o: Outcome, frame: Frame) returns (s': State)
    requires At(reached, s, Idle, r, o) && |frame| == 2
    ensures At(reached, s', LoadedTicket(frame, s.m.writeTicket), r, o)
    ensures s'.m == s.m.(producer := s'.m.producer) && s'.l == s.l
  {
    s' := Take(reached, s, Push(frame));
  }

  lemma Open(reached: State -> bool, s: State, r: Reader, o: Outcome, frame: Frame, n: nat) returns (s': State)
    requires At(reached, s, LoadedTicket(frame, ToInt32(n)), r, o)
    ensures At(reached, s', Writing(frame, ToInt32(n), 0), r, o)
    ensures s'.m.writeTicket == s.m.writeTicket && s'.l.pushed == s.l.pushed + [frame]
  {
    Numbers(n);
    s' := Take(reached, s, Resume);
  }

  lemma WriteBoth(reached: State -> bool, s: State, r: Reader, o: Outcome, frame: Frame, n: nat) returns (s': State)
    requires At(reached, s, Writing(frame, ToInt32(n), 0), r, o) && |frame| == 2
    ensures At(reached, s', Writing(frame, ToInt32(n), 2), r, o)
    ensures s'.m.writeTicket == s.m.writeTicket && s'.l == s.l && s'.m.payload[n % 2] == frame
  {
    Numbers(n);
    var s1 := Take(reached, s, Resume);
    assert s1.m.payload[n % 2] == s.m.payload[n % 2][0 := frame[0]];
    s' := Take(reached, s1, Resume);
    assert s'.m.payload[n % 2] == s1.m.payload[n % 2][1 := frame[1]];
    assert s'.m.payload[n % 2] == [frame[0], frame[1]] == frame;
  }

  lemma Close(reached: State -> bool, s: State, r: Reader, o: Outcome, frame: Frame, n: nat) returns (s': State)
    requires At(reached, s, Writing(frame, ToInt32(n), 2), r, o)
    ensures At(reached, s', Idle, r, o) && s'.m.writeTicket == ToInt32(n + 1) && s'.l == s.l
    ensures s'.m.gen[n % 2] == ToInt32(Complete(n)) && s'.m.payload == s.m.payload
  {
    Numbers(n);
    var s1 := Take(reached, s, Resume);
    s' := Take(reached, s1, Resume);
  }

  /** n frames were pushed, the first of them FIRST and the others LATER; the reader did nothing meanwhile. */
  ghost predicate Pushed(reached: State -> bool, s: State, r: Reader, o: Outcome, n: nat) {
    && n > 0 && At(reached, s, Idle, r, o) && s.m.writeTicket == ToInt32(n)
    && |s.l.pushed| == n && s.l.pushed[0] == FIRST && (forall t :: 1 <= t < n ==> s.l.pushed[t] == LATER)
    && s.m.gen[(n - 1) % 2] == ToInt32(Complete(n - 1)) && s.m.payload[(n - 1) % 2] == s.l.pushed[n - 1]
  }

  lemma PushOne(reached: State -> bool, before: State, r: Reader, o: Outcome, n: nat, frame: Frame)
    returns (s: State)
    requires At(reached, before, Idle, r, o) && before.m.writeTicket == ToInt32(n) && |frame| == 2
    ensures At(reached, s, Idle, r, o) && s.m.writeTicket == ToInt32(n + 1)
    ensures s.l.pushed == before.l.pushed + [frame]
    ensures s.m.gen[n % 2] == ToInt32(Complete(n)) && s.m.payload[n % 2] == frame
  {
    s := BeginPush(reached, before, r, o, frame);
    s := Open(reached, s, r, o, frame, n);
    s := WriteBoth(reached, s, r, o, frame, n);
    s := Close(reached, s, r, o, frame, n);
  }

  lemma {:induction false} PushUpTo(reached: State -> bool, before: State, r: Reader, o: Outcome, m: nat, n: nat)
    returns (s: State)
    requires Pushed(reached, before, r, o, m) && m <= n
    ensures Pushed(reached, s, r, o, n)
    decreases n
  {
    if m == n {
      s := before;
    } else {
      var s1 := PushUpTo(reached, before, r, o, m, n - 1);
      s := PushOne(reached, s1, r, o, n - 1, LATER);
    }
  }

  // ----- the reader -----

  const RESTED := Reader(0, 0, 0, Resting)
  const NOTHING := Outcome([], [], {})

  lemma Start(reached: State -> bool) returns (s: State)
    requires Closed(reached) && reached(Run(TINY, []))
    ensures Pushed(reached, s, RESTED, NOTHING, 1)
  {
    s := Run(TINY, []);
    s := PushOne(reached, s, RESTED, NOTHING, 0, FIRST);
  }

  /** The reader enters `pull` with its cursor at 0 and sees n tickets, at most two or, wrapped, a negative number. */
  lemma Approach(reached: State -> bool, s: State, n: nat) returns (s': State)
    requires Pushed(reached, s, RESTED, NOTHING, n) && ToInt32(n) <= 2
    requires n % 2 == 1 && ToInt32(Complete(n - 1)) == 0
    ensures Pushed(reached, s', RESTED.(at := Reading(0, 0, [])), NOTHING, n) && s'.l == s.l
  {
    Numbers(0);
    ToInt32Add(n, 0);
    s' := Take(reached, s, Pull(0));
    s' := Take(reached, s', Pull(0));
    assert s'.m.readers[0].at == AtGate(0, 0);
    s' := Take(reached, s', Pull(0));
  }

  lemma ReadOne(reached: State -> bool, s: State, out: Frame, n: nat) returns (s': State)
    requires Pushed(reached, s, RESTED.(at := Reading(0, 0, out)), NOTHING, n) && |out| < 2 && n % 2 == 1
    ensures Pushed(reached, s', RESTED.(at := Reading(0, 0, out + [s.l.pushed[n - 1][|out|]])), NOTHING, n)
    ensures s'.l == s.l
  {
    Numbers(0);
    s' := Take(reached, s, Pull(0));
  }

  lemma Finish(reached: State -> bool, s: State, out: Frame, n: nat) returns (s': State)
    requires Pushed(reached, s, RESTED.(at := Reading(0, 0, out)), NOTHING, n) && |out| == 2 && n % 2 == 1
    requires ToInt32(Complete(n - 1)) == 0
    ensures Pushed(reached, s', Reader(1, 0, 0, Resting), Outcome([0], [out], {}), n) && s'.l.pushed == s.l.pushed
  {
    Numbers(0);
    s' := Take(reached, s, Pull(0));
    assert s'.m.readers[0].at == Storing(0, out);
    assert [] + [0] == [0] && [] + [out] == [out];
    s' := Take(reached, s', Pull(0));
    assert s'.l.outcomes[0] == Outcome([0], [out], {});
  }

  /** The reader's `pull` returned true with a frame that was never pushed. */
  ghost predicate DeliveredTorn(s: State) {
    && s.m.Shaped(TINY) && |s.l.outcomes| == 1
    && s.m.producer.Idle? && s.m.readers[0].at.Resting? && s.m.readers[0].tornGuarded == 0
    && s.l.outcomes[0].frames == [[0, 1]]
    && |s.l.pushed| == TWO_31 + 1 && [0, 1] !in s.l.pushed
  }

  /** 2^31 + 1 frames are pushed before a reader's first `pull`, which returns the last of them; the reader counts
      it as its first ticket, and nothing as lost. */
  ghost predicate LossesUncounted(s: State) {
    && s.m.Shaped(TINY) && |s.l.outcomes| == 1
    && s.m.producer.Idle? && s.m.readers[0] == Reader(1, 0, 0, Resting)
    && |s.l.pushed| == TWO_31 + 1
    && s.l.outcomes[0].tickets == [0] && s.l.outcomes[0].frames == [s.l.pushed[TWO_31]] != [s.l.pushed[0]]
  }

  lemma TornState(reached: State -> bool) returns (s: State)
    requires Closed(reached) && reached(Run(TINY, []))
    ensures reached(s) && DeliveredTorn(s)
  {
    s := Start(reached);
    s := Approach(reached, s, 1);
    s := ReadOne(reached, s, [], 1);
    assert [] + [s.l.pushed[0][0]] == [0];
    s := PushUpTo(reached, s, RESTED.(at := Reading(0, 0, [0])), NOTHING, 1, TWO_31 + 1);
    s := ReadOne(reached, s, [0], TWO_31 + 1);
    assert [0] + [LATER[1]] == [0, 1];
    s := Finish(reached, s, [0, 1], TWO_31 + 1);
    assert forall t :: 0 <= t < |s.l.pushed| ==> s.l.pushed[t] != [0, 1];
  }

  lemma UncountedState(reached: State -> bool) returns (s: State)
    requires Closed(reached) && reached(Run(TINY, []))
    ensures reached(s) && LossesUncounted(s)
  {
    s := Start(reached);
    s := PushUpTo(reached, s, RESTED, NOTHING, 1, TWO_31 + 1);
    s := Approach(reached, s, TWO_31 + 1);
    s := ReadOne(reached, s, [], TWO_31 + 1);
    assert [] + [LATER[0]] == [1];
    s := ReadOne(reached, s, [1], TWO_31 + 1);
    assert [1] + [LATER[1]] == LATER;
    s := Finish(reached, s, LATER, TWO_31 + 1);
  }

  ghost predicate Reachable(s: State) {
    exists actions :: Run(TINY, actions) == s
  }

  lemma ReachableIsClosed()
    ensures Closed(Reachable) && Reachable(Run(TINY, []))
  {
    forall s, a | Reachable(s) ensures StaysInside(Reachable, s, a) {
      var actions :| Run(TINY, actions) == s;
      assert (actions + [a])[..|actions|] == actions;
      assert Run(TINY, actions + [a]) == Next(TINY, s, a);
    }
  }

  /** A run in which the re-read does not notice that the slot was overwritten 2^30 times. */
  lemma TornFrameIsDelivered()
    ensures exists actions :: DeliveredTorn(Run(TINY, actions))
  {
    ReachableIsClosed();
    var s := TornState(Reachable);
    var actions :| Run(TINY, actions) == s;
  }

  /** A run in which neither the overload net nor the gate notices that the reader was lapped. */
  lemma LappedReaderLosesCount()
    ensures exists actions :: LossesUncounted(Run(TINY, actions))
  {
    ReachableIsClosed();
    var s := UncountedState(Reachable);
    var actions :| Run(TINY, actions) == s;
  }
}
