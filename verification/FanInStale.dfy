/** Where MpmcRing's envelope check misreads: a push parked between its two loads while 2^31 + 1 frames pass is told
    that the ring is full, although it is empty. A run of two producers, two slots and one-word frames. */
module FanInStale {
  import opened Int32
  import opened Tickets
  import opened FanInRing

  const TINY := Config(Wrapped, 2, 2, 1, 2)
  const FRAME: Frame := [7]

  /** A set of states of the tiny ring that every step stays inside. */
  ghost predicate Closed(reached: State -> bool) {
    forall s, a :: reached(s) ==> StaysInside(reached, s, a)
  }

  ghost predicate StaysInside(reached: State -> bool, s: State, a: Action) {
    s.m.Shaped(TINY) && reached(State(Step(TINY, s.m, a), Record(TINY, s.m, s.l, a)))
  }

  lemma Take(reached: State -> bool, s: State, a: Action) returns (s': State)
    requires Closed(reached) && reached(s)
    ensures s.m.Shaped(TINY) && reached(s')
    ensures s' == State(Step(TINY, s.m, a), Record(TINY, s.m, s.l, a))
  {
    assert StaysInside(reached, s, a);
    s' := State(Step(TINY, s.m, a), Record(TINY, s.m, s.l, a));
  }

  const PARKED := LoadedTicket(FRAME, 0)

  /** Producer 0 is parked between its loads, producer 1 stands at x, the consumer at y. */
  ghost predicate At(reached: State -> bool, s: State, x: Producer, y: Consumer) {
    reached(s) && Closed(reached) && s.m.producers == [PARKED, x] && s.m.consumer == y && s.m.droppedFrames == 0
      && |s.m.gen| == 2
  }

  /** n frames have passed; producer 0 has been parked since before the first. */
  ghost predicate Passed(reached: State -> bool, s: State, n: nat) {
    && At(reached, s, Idle, Resting)
    && s.m.enqueueTicket == s.m.dequeuePos == ToInt32(n) && |s.l.frames| == |s.l.delivered| == n
  }

  lemma Numbers(n: nat)
    ensures Wrapped.Slot(ToInt32(n), 2) == n % 2
    ensures ToInt32(ToInt32(n) + 1) == ToInt32(n + 1) && ToInt32(ToInt32(n)) == ToInt32(n)
    ensures SignedDiff(ToInt32(n), ToInt32(n)) == 0 && SignedDiff(ToInt32(n + 1), ToInt32(n)) == 1
  {
    SlotExact(n, 1);
    assert Pow2(1) == 2;
    ToInt32Add(n, 1);
    ToInt32Add(n, 0);
    SignedDiffExact(n, n);
    SignedDiffExact(n + 1, n);
  }

  lemma Admit(reached: State -> bool, s: State, n: nat) returns (s': State)
    requires Passed(reached, s, n)
    ensures At(reached, s', Admitted(FRAME, ToInt32(n)), Resting)
    ensures s'.m.enqueueTicket == s'.m.dequeuePos == ToInt32(n)
    ensures s'.l.frames == s.l.frames && s'.l.delivered == s.l.delivered
  {
    Numbers(n);
    s' := Take(reached, s, Push(1, FRAME));
    assert s'.m.producers[1] == LoadedTicket(FRAME, ToInt32(n));
    s' := Take(reached, s', Resume(1));
  }

  lemma Publish(reached: State -> bool, s: State, n: nat) returns (s': State)
    requires At(reached, s, Admitted(FRAME, ToInt32(n)), Resting) && s.m.enqueueTicket == s.m.dequeuePos == ToInt32(n)
    ensures At(reached, s', Idle, Resting) && s'.m.gen[n % 2] == ToInt32(n)
    ensures s'.m.enqueueTicket == ToInt32(n + 1) && s'.m.dequeuePos == ToInt32(n)
    ensures |s'.l.frames| == |s.l.frames| + 1 && s'.l.delivered == s.l.delivered
  {
    Numbers(n);
    s' := Take(reached, s, Resume(1));
    assert s'.m.producers[1] == Writing(FRAME, ToInt32(n), 0);
    s' := Take(reached, s', Resume(1));
    assert s'.m.producers[1] == Writing(FRAME, ToInt32(n), 1);
    s' := Take(reached, s', Resume(1));
  }

  lemma Reach(reached: State -> bool, s: State, n: nat) returns (s': State)
    requires At(reached, s, Idle, Resting) && s.m.gen[n % 2] == ToInt32(n)
    requires s.m.enqueueTicket == ToInt32(n + 1) && s.m.dequeuePos == ToInt32(n)
    ensures At(reached, s', Idle, Reading(ToInt32(n), []))
    ensures s'.m.enqueueTicket == s.m.enqueueTicket && s'.l == s.l
  {
    Numbers(n);
    s' := Take(reached, s, Pull);
    s' := Take(reached, s', Pull);
    assert s'.m.consumer == AtGate(ToInt32(n), ToInt32(n));
    s' := Take(reached, s', Pull);
  }

  lemma Deliver(reached: State -> bool, s: State, n: nat) returns (s': State)
    requires At(reached, s, Idle, Reading(ToInt32(n), [])) && s.m.enqueueTicket == ToInt32(n + 1)
    ensures At(reached, s', Idle, Resting) && s'.m.enqueueTicket == s'.m.dequeuePos == ToInt32(n + 1)
    ensures s'.l.frames == s.l.frames && |s'.l.delivered| == |s.l.delivered| + 1
  {
    Numbers(n);
    s' := Take(reached, s, Pull);
    s' := Take(reached, s', Pull);
  }

  lemma {:induction false} PassMany(reached: State -> bool, n: nat) returns (s: State)
    requires Closed(reached) && reached(Run(TINY, []))
    ensures Passed(reached, s, n)
    decreases n
  {
    if n == 0 {
      s := Take(reached, Run(TINY, []), Push(0, FRAME));
    } else {
      s := PassMany(reached, n - 1);
      s := Admit(reached, s, n - 1);
      s := Publish(reached, s, n - 1);
      s := Reach(reached, s, n - 1);
      s := Deliver(reached, s, n - 1);
    }
  }

  /** Every frame pushed has been delivered, nobody is inside a call, and yet a push has been dropped as full. */
  ghost predicate DroppedThoughEmpty(s: State) {
    && s.m.producers == [Idle, Idle] && s.m.consumer == Resting
    && s.m.enqueueTicket == s.m.dequeuePos && |s.l.frames| == |s.l.delivered| == TWO_31 + 1
    && s.m.droppedFrames == 1
  }

  lemma StaleState(reached: State -> bool) returns (s: State)
    requires Closed(reached) && reached(Run(TINY, []))
    ensures reached(s) && DroppedThoughEmpty(s)
  {
    s := PassMany(reached, TWO_31 + 1);
    s := Take(reached, s, Resume(0));
    assert s.m.producers[0] == Dropping(FRAME);
    s := Take(reached, s, Resume(0));
  }

  ghost predicate Reachable(s: State) {
    exists actions :: Run(TINY, actions) == s
  }

  lemma ReachableIsClosed()
    ensures Closed(Reachable) && Reachable(Run(TINY, []))
  {
    forall s, a | Reachable(s) ensures StaysInside(Reachable, s, a) {
      var actions :| Run(TINY, actions) == s;
      assert (actions + [a])[..|actions|] == actions;
      assert Run(TINY, actions + [a]) == State(Step(TINY, s.m, a), Record(TINY, s.m, s.l, a));
    }
  }

  /** The misreading run. */
  lemma StalePushIsDropped()
    ensures exists actions :: DroppedThoughEmpty(Run(TINY, actions))
  {
    ReachableIsClosed();
    var s := StaleState(Reachable);
    var actions :| Run(TINY, actions) == s;
  }
}
