/** What MpmcWorkQueue's Int32 lanes keep, under a condition on the schedule alone: fewer than 2^31 pushes, less one
    for each consumer. */
module WorkQueueLanes {
  import opened Int32
  import opened Tickets
  import opened WorkQueue
  import opened WorkQueueSafety
  import opened WorkQueueTheorems
  import opened WorkQueueWrap

  /** How many `push` calls a schedule opens. */
  function Pushes(actions: seq<Action>): (n: nat) {
    if actions == [] then 0
    else Pushes(actions[..|actions| - 1]) + if actions[|actions| - 1].Push? then 1 else 0
  }

  lemma {:induction false} AttemptsArePushes(c: Config, actions: seq<Action>)
    requires c.Valid()
    ensures Run(c, actions).l.attempts <= Pushes(actions)
    decreases |actions|
  {
    if actions != [] {
      AttemptsArePushes(c, actions[..|actions| - 1]);
    }
  }

  lemma {:induction false} PushesGrow(actions: seq<Action>, i: nat)
    requires i <= |actions|
    ensures Pushes(actions[..i]) <= Pushes(actions)
    decreases |actions|
  {
    if i == |actions| {
      assert actions[..i] == actions;
    } else {
      PushesGrow(actions[..|actions| - 1], i);
      assert actions[..|actions| - 1][..i] == actions[..i];
    }
  }

  /** The condition of `Int32Refines` holds throughout when few enough pushes are made. */
  lemma {:induction false} FewPushesStaySmall(c: Config, actions: seq<Action>)
    requires c.Valid() && c.arith.Unbounded? && c.threads <= c.producerCount && c.consumers >= 1
    requires Pushes(actions) + c.consumers <= TWO_31
    ensures AlwaysSmall(c, actions)
  {
    forall i | 0 <= i < |actions| ensures Small(Run(c, actions[..i]).m) {
      PushesGrow(actions, i);
      AttemptsArePushes(c, actions[..i]);
      AttemptsConserved(c, actions[..i]);
      ClaimOvershoot(c, actions[..i]);
      TicketsAreFrames(c, actions[..i]);
    }
  }

  lemma {:induction false} TicketsAreFrames(c: Config, actions: seq<Action>)
    requires c.Valid() && c.arith.Unbounded? && c.threads <= c.producerCount
    ensures var s := Run(c, actions); s.m.enqueueTicket == |s.l.frames| && s.m.droppedFrames >= 0
  {
    RunKeeps(c, actions);
    DropsNeverNegative(c, actions);
  }

  lemma {:induction false} DropsNeverNegative(c: Config, actions: seq<Action>)
    requires c.Valid() && c.arith.Unbounded?
    ensures Run(c, actions).m.droppedFrames >= 0
    decreases |actions|
  {
    if actions != [] {
      DropsNeverNegative(c, actions[..|actions| - 1]);
      StepDrops(c, Run(c, actions[..|actions| - 1]).m, actions[|actions| - 1]);
    }
  }

  lemma StepDrops(c: Config, m: Machine, a: Action)
    requires m.Shaped(c) && c.arith.Unbounded?
    ensures m.droppedFrames <= Step(c, m, a).droppedFrames <= m.droppedFrames + 1
  {
  }

  /** Exactly-once delivery on the lanes. */
  lemma {:induction false} Int32ExactlyOnce(c: Config, n: nat, actions: seq<Action>)
    requires Accepted(c, n) && c.threads <= c.producerCount && c.consumers >= 1
    requires Pushes(actions) + c.consumers <= TWO_31
    ensures var s := Run(Wrapped32(c), actions);
      && (forall k: nat :: k < c.consumers ==> OutcomeFaithful(s.l, s.l.outcomes[k]))
      && (forall j: nat, k: nat, t :: j < c.consumers && k < c.consumers && j != k && t in s.l.outcomes[j].tickets
            ==> t !in s.l.outcomes[k].tickets)
      && s.m.tornGuarded == 0
  {
    FewPushesStaySmall(c, actions);
    Int32Refines(c, n, actions);
    ExactlyOnce(c, actions);
    var s := Run(c, actions);
    forall j: nat, k: nat, t | j < c.consumers && k < c.consumers && j != k && t in s.l.outcomes[j].tickets
      ensures t !in s.l.outcomes[k].tickets
    {
      assert Has(s, j, t);
      assert !Has(s, k, t);
    }
  }

  /** End of stream on the lanes: once every consumer has reported `isDrained`, every frame has been delivered, and
      with no push open each attempt was delivered or counted as dropped. */
  lemma {:induction false} Int32EndOfStream(c: Config, n: nat, actions: seq<Action>)
    requires Accepted(c, n) && c.threads <= c.producerCount && c.consumers >= 1
    requires Pushes(actions) + c.consumers <= TWO_31
    requires forall k :: 0 <= k < c.consumers ==> Run(Wrapped32(c), actions).m.consumers[k].drained
    ensures var s := Run(Wrapped32(c), actions);
      && s.m.closed && s.m.enqueueTicket == |s.l.frames|
      && (forall t :: t in s.l.freed <==> 0 <= t < |s.l.frames|)
      && (forall k :: 0 <= k < c.consumers ==> s.m.consumers[k].held.Nothing?)
      && ((forall p :: 0 <= p < c.threads ==> s.m.producers[p].Idle?)
          ==> s.l.attempts == |s.l.frames| + s.m.droppedFrames)
  {
    FewPushesStaySmall(c, actions);
    Int32Refines(c, n, actions);
    var s := Run(c, actions);
    forall k | 0 <= k < c.consumers ensures s.m.consumers[k].drained {
      assert Wrap(s.m).consumers[k] == WrapConsumer(s.m.consumers[k]);
    }
    EndOfStream(c, actions);
    Bounded(c, actions);
    forall k | 0 <= k < c.consumers ensures Wrap(s.m).consumers[k].held.Nothing? {
      assert Wrap(s.m).consumers[k] == WrapConsumer(s.m.consumers[k]);
    }
    if forall p :: 0 <= p < c.threads ==> Wrap(s.m).producers[p].Idle? {
      forall p | 0 <= p < c.threads ensures s.m.producers[p].Idle? {
        assert Wrap(s.m).producers[p] == WrapProducer(s.m.producers[p]);
      }
      CountAll(s.l.freed, s.m.enqueueTicket);
    }
  }

  /** Below 2^31 attempts, the tickets and the drop count are their own lane values. */
  lemma {:induction false} Bounded(c: Config, actions: seq<Action>)
    requires c.Valid() && c.arith.Unbounded? && c.threads <= c.producerCount && Pushes(actions) < TWO_31
    ensures var s := Run(c, actions);
      && s.m.enqueueTicket == |s.l.frames| == ToInt32(s.m.enqueueTicket)
      && s.m.droppedFrames == ToInt32(s.m.droppedFrames)
  {
    AttemptsArePushes(c, actions);
    AttemptsConserved(c, actions);
    TicketsAreFrames(c, actions);
  }
}
