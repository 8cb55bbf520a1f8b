/** What MpmcRing's Int32 lanes keep in every run, however long a push was parked. A check that reads wrapped
    tickets can only refuse where an unbounded one would admit, and a refusal is always safe: the lanes run the
    unbounded protocol in which some checks refuse although there is room. */
module FanInLanes {
  import opened Int32
  import opened Tickets
  import opened FanInRing
  import opened FanInSafety
  import opened FanInTheorems
  import opened FanInWrap

  /** The step is a check that the lanes refuse. */
  predicate Refuses(c: Config, m: Machine, a: Action)
    requires m.Shaped(c)
  {
    Checks(c, m, a)
    && SignedDiff(ToInt32(m.producers[a.p].w), ToInt32(m.dequeuePos)) >= c.capacity - c.Slack()
  }

  function Refused(c: Config, m: Machine, p: nat): (m': Machine)
    requires m.Shaped(c) && p < c.threads && m.producers[p].LoadedTicket?
    ensures m'.Shaped(c)
  {
    m.(producers := m.producers[p := Dropping(m.producers[p].frame)])
  }

  /** The unbounded protocol, except that a check refuses when the lanes do. */
  function LossyStep(c: Config, m: Machine, a: Action): (m': Machine)
    requires m.Shaped(c)
    ensures m'.Shaped(c)
  {
    if Refuses(c, m, a) then Refused(c, m, a.p) else Step(c, m, a)
  }

  function LossyNext(c: Config, s: State, a: Action): (s': State)
    requires s.m.Shaped(c)
    ensures s'.m.Shaped(c)
  {
    State(LossyStep(c, s.m, a), Record(c, s.m, s.l, a))
  }

  function LossyRun(c: Config, actions: seq<Action>): (s: State)
    requires c.Valid()
    ensures s.m.Shaped(c)
  {
    if actions == [] then Run(c, [])
    else LossyNext(c, LossyRun(c, actions[..|actions| - 1]), actions[|actions| - 1])
  }

  lemma {:induction false} LossyKeeps(c: Config, s: State, a: Action)
    requires Inv(c, s)
    ensures Inv(c, LossyNext(c, s, a))
  {
    if Refuses(c, s.m, a) {
      SameTickets(c, s, LossyNext(c, s, a));
    } else {
      StepKeeps(c, s, a);
    }
  }

  lemma {:induction false} LossyRunKeeps(c: Config, actions: seq<Action>)
    requires c.Valid() && c.arith.Unbounded? && c.threads <= c.producerCount
    ensures Inv(c, LossyRun(c, actions))
    decreases |actions|
  {
    if actions == [] {
      InitOk(c);
    } else {
      LossyRunKeeps(c, actions[..|actions| - 1]);
      LossyKeeps(c, LossyRun(c, actions[..|actions| - 1]), actions[|actions| - 1]);
    }
  }

  /** A check that finds the ring full is never misread, whatever the lag; so the lanes admit only where there is
      room. */
  lemma {:induction false} FullIsRefused(c: Config, k: nat, s: State, a: Action)
    requires Accepted(c, k) && Inv(c, s) && Checks(c, s.m, a)
    requires s.m.producers[a.p].w - s.m.dequeuePos >= c.capacity - c.Slack()
    ensures Refuses(c, s.m, a)
  {
    Pow2Limit(k);
    assert ProducerOk(c, s, a.p);
    SignedDiffExact(s.m.producers[a.p].w, s.m.dequeuePos);
  }

  lemma {:induction false} CheckIsLossy(c: Config, k: nat, s: State, p: nat)
    requires Accepted(c, k) && Inv(c, s) && p < c.threads && s.m.producers[p].LoadedTicket?
    ensures Wrap(s.m).Shaped(Wrapped32(c))
    ensures ProducerStep(Wrapped32(c), Wrap(s.m), p) == Wrap(LossyStep(c, s.m, Resume(p)))
  {
    var x := s.m.producers[p];
    if x.w - s.m.dequeuePos >= c.capacity - c.Slack() {
      FullIsRefused(c, k, s, Resume(p));
    }
    WrapUpdate(s.m.producers, p, LossyStep(c, s.m, Resume(p)).producers[p]);
    assert Wrap(s.m).producers[p] == WrapProducer(x);
  }

  lemma {:induction false} LaneStepIsLossy(c: Config, k: nat, s: State, a: Action)
    requires Accepted(c, k) && Inv(c, s)
    ensures Wrap(s.m).Shaped(Wrapped32(c))
    ensures Step(Wrapped32(c), Wrap(s.m), a) == Wrap(LossyStep(c, s.m, a))
  {
    if Checks(c, s.m, a) {
      CheckIsLossy(c, k, s, a.p);
    } else {
      StepWraps(c, k, s, a);
    }
  }

  /** In every run whatever, the lanes and the history are those of the lossy protocol, wrapped. */
  lemma {:induction false} LanesAreLossy(c: Config, k: nat, actions: seq<Action>)
    requires Accepted(c, k) && c.threads <= c.producerCount
    ensures Run(Wrapped32(c), actions) == State(Wrap(LossyRun(c, actions).m), LossyRun(c, actions).l)
    decreases |actions|
  {
    if actions == [] {
      StartWraps(c);
    } else {
      var init, a := actions[..|actions| - 1], actions[|actions| - 1];
      LanesAreLossy(c, k, init);
      LossyRunKeeps(c, init);
      LaneStepIsLossy(c, k, LossyRun(c, init), a);
      SameRecord(c, LossyRun(c, init), a);
    }
  }

  /** The lanes as they are in memory keep the promise in every run, across any number of wraps and however long any
      thread was parked: pushed frames are delivered in order, whole and once each, in flight is at most the capacity,
      and the overload counters stay 0. */
  lemma {:induction false} Int32DeliversInOrder(c: Config, k: nat, actions: seq<Action>)
    requires Accepted(c, k) && c.threads <= c.producerCount
    ensures var s := Run(Wrapped32(c), actions);
      && s.l.delivered <= s.l.frames && |s.l.frames| <= |s.l.delivered| + c.capacity
      && s.m.enqueueTicket == ToInt32(|s.l.frames|) && s.m.dequeuePos == ToInt32(|s.l.delivered|)
      && s.m.overrunLost == 0 && s.m.tornFrames == 0
  {
    LanesAreLossy(c, k, actions);
    LossyRunKeeps(c, actions);
  }

  // Nothing is lost without being counted

  lemma {:induction false} LossyConserves(c: Config, s: State, a: Action)
    requires s.m.Shaped(c) && c.arith.Unbounded?
    ensures var s' := LossyNext(c, s, a);
      s'.l.attempts - |s'.l.frames| - s'.m.droppedFrames - Pending(s'.m.producers)
      == s.l.attempts - |s.l.frames| - s.m.droppedFrames - Pending(s.m.producers)
  {
    if Refuses(c, s.m, a) {
      PendingUpdate(s.m.producers, a.p, Dropping(s.m.producers[a.p].frame));
    } else {
      StepConserves(c, s, a);
    }
  }

  lemma {:induction false} LossyAttempts(c: Config, actions: seq<Action>)
    requires c.Valid() && c.arith.Unbounded?
    ensures var s := LossyRun(c, actions);
      s.l.attempts == |s.l.frames| + s.m.droppedFrames + Pending(s.m.producers)
    decreases |actions|
  {
    if actions == [] {
      PendingNone(Run(c, []).m.producers);
    } else {
      LossyAttempts(c, actions[..|actions| - 1]);
      LossyConserves(c, LossyRun(c, actions[..|actions| - 1]), actions[|actions| - 1]);
    }
  }

  lemma {:induction false} PendingWraps(ps: seq<Producer>)
    ensures Pending(WrapProducers(ps)) == Pending(ps)
  {
    if ps != [] {
      PendingWraps(ps[1..]);
      assert WrapProducers(ps)[1..] == WrapProducers(ps[1..]);
    }
  }

  /** In every run the drop lane counts, modulo 2^32, the attempted pushes that neither claimed a ticket nor are still
      undecided. */
  lemma {:induction false} Int32AttemptsConserved(c: Config, k: nat, actions: seq<Action>)
    requires Accepted(c, k) && c.threads <= c.producerCount
    ensures var s := Run(Wrapped32(c), actions);
      s.m.droppedFrames == ToInt32(s.l.attempts - |s.l.frames| - Pending(s.m.producers))
  {
    LanesAreLossy(c, k, actions);
    LossyAttempts(c, actions);
    PendingWraps(LossyRun(c, actions).m.producers);
  }
}
