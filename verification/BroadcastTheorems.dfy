/** What SpmcRing promises, over every run with tickets that never wrap; BroadcastWrap says how far the Int32 lanes
    keep it. */
module BroadcastTheorems {
  import opened Tickets
  import opened BroadcastRing
  import opened BroadcastSafety
  import opened WaitFreedom

  /** A `pull` that returns true returns exactly the frame pushed under its ticket, so readers that
      both deliver a ticket deliver the same words, however often the producer lapped them meanwhile. */
  lemma {:induction false} SeqlockNeverTears(c: Config, actions: seq<Action>)
    requires c.Valid() && c.arith.Unbounded?
    ensures var s := Run(c, actions);
      forall k :: 0 <= k < c.consumers ==>
        FramesOk(s.l.pushed, s.l.outcomes[k]) && |s.l.outcomes[k].frames| == |s.l.outcomes[k].tickets|
    ensures var s := Run(c, actions);
      forall k, k', i, i' ::
        && 0 <= k < c.consumers && 0 <= i < |s.l.outcomes[k].tickets|
        && 0 <= k' < c.consumers && 0 <= i' < |s.l.outcomes[k'].tickets|
        && i < |s.l.outcomes[k].frames| && i' < |s.l.outcomes[k'].frames|
        && s.l.outcomes[k].tickets[i] == s.l.outcomes[k'].tickets[i']
        ==> s.l.outcomes[k].frames[i] == s.l.outcomes[k'].frames[i']
  {
    RunKeeps(c, actions);
    var s := Run(c, actions);
    forall k | 0 <= k < c.consumers
      ensures FramesOk(s.l.pushed, s.l.outcomes[k]) && |s.l.outcomes[k].frames| == |s.l.outcomes[k].tickets|
    {
      assert ReaderOk(c, s, k);
    }
  }

  /** Between calls, the tickets below a reader's cursor split exactly into those delivered once, in
      increasing order, and those counted once in `dropped`; the cursor is at most one past
      `writeTicket`; torn discards are among the drops; and nothing is lost that was not lapped. */
  lemma {:induction false} BroadcastAccounting(c: Config, actions: seq<Action>, k: nat)
    requires c.Valid() && c.arith.Unbounded? && k < c.consumers && Run(c, actions).m.readers[k].at.Resting?
    ensures var s := Run(c, actions);
      var r, o := s.m.readers[k], s.l.outcomes[k];
      && 0 <= r.dequeuePos <= s.m.writeTicket + 1
      && (forall t :: 0 <= t < r.dequeuePos <==> t in o.tickets || t in o.lost)
      && (forall t :: !(t in o.tickets && t in o.lost))
      && (forall i, j :: 0 <= i < j < |o.tickets| ==> o.tickets[i] < o.tickets[j])
      && |o.tickets| + r.dropped == r.dequeuePos && |o.lost| == r.dropped
      && 0 <= r.tornGuarded <= r.dropped
      && (forall t :: t in o.lost ==> t + c.capacity <= s.m.writeTicket)
  {
    RunKeeps(c, actions);
    var s := Run(c, actions);
    assert ReaderOk(c, s, k);
    var o := s.l.outcomes[k];
    CountDelivered(o.tickets, o.lost, s.m.readers[k].dequeuePos);
  }

  /** A reader that arrives at a completed head within the window is handed it: the gate opens exactly
      for the completed, not yet lapped head. */
  lemma {:induction false} GateExact(c: Config, actions: seq<Action>, k: nat)
    requires c.Valid() && c.arith.Unbounded? && k < c.consumers && Run(c, actions).m.readers[k].at.AtGate?
    ensures var s := Run(c, actions);
      var head, n := s.m.readers[k].at.head, |s.l.pushed|;
      ReaderStep(c, s.m, s.m.readers[k]).at.Reading?
      <==> n - c.capacity <= head < n && !(s.m.producer.Writing? && head == n - 1)
  {
    RunKeeps(c, actions);
    var s := Run(c, actions);
    assert ReaderOk(c, s, k);
    var head, n := s.m.readers[k].at.head, |s.l.pushed|;
    GateKeeps(c, s, head);
    if 0 <= head < n {
      StampOf(c, s, head);
      if head >= n - c.capacity {
        assert SlotOk(c, s, head);
      }
    }
  }

  // ----- wait-freedom -----

  datatype Thread = Producing | Consuming(k: nat) {
    predicate In(c: Config) { Consuming? ==> k < c.consumers }
    function Own(): Action { if Producing? then Resume else Pull(k) }
  }

  /** How many of its own steps a thread still needs to return, whatever the others do. */
  function StepsLeft(c: Config, m: Machine, th: Thread): (n: nat)
    requires m.Shaped(c) && th.In(c)
  {
    if th.Producing? then
      match m.producer
      case Idle => 0
      case LoadedTicket(_, _) => c.words + 3
      case Writing(_, _, k) => c.words - k + 2
      case Advancing(_) => 1
    else
      match m.readers[th.k].at
      case Resting => 0
      case LoadedHead(_) => c.words + 7
      case CountingLoss(_, _, _) => c.words + 6
      case AtGate(_, _) => c.words + 5
      case Reading(_, _, out) => c.words - |out| + 4
      case CountingTorn(_) => 3
      case CountingDrop(_) => 2
      case Storing(_, _) => 1
      case StoringSkip(_) => 1
      case StoringCatchUp(_) => 1
  }

  lemma StepsFall(c: Config, m: Machine, a: Action, th: Thread)
    requires m.Shaped(c) && th.In(c) && StepsLeft(c, m, th) > 0
    ensures StepsLeft(c, Step(c, m, a), th) + (if a == th.Own() then 1 else 0) <= StepsLeft(c, m, th)
  {
  }

  function Left(c: Config, actions: seq<Action>, th: Thread): nat
    requires c.Valid() && th.In(c)
  {
    StepsLeft(c, Run(c, actions).m, th)
  }

  lemma LeftFalls(c: Config, actions: seq<Action>, a: Action, th: Thread)
    requires c.Valid() && th.In(c) && Left(c, actions, th) > 0
    ensures Left(c, actions + [a], th) + (if a == th.Own() then 1 else 0) <= Left(c, actions, th)
  {
    assert (actions + [a])[..|actions|] == actions;
    StepsFall(c, Run(c, actions).m, a, th);
  }

  lemma LeftFallsAt(c: Config, before: seq<Action>, after: seq<Action>, th: Thread, i: nat)
    requires c.Valid() && th.In(c) && i < |after| && Left(c, before + after[..i], th) > 0
    ensures Left(c, before + after[..i + 1], th) + (if after[i] == th.Own() then 1 else 0)
         <= Left(c, before + after[..i], th)
  {
    assert before + after[..i + 1] == (before + after[..i]) + [after[i]];
    LeftFalls(c, before + after[..i], after[i], th);
  }

  /** What the thread still needs, as a function of the run. */
  function Needs(c: Config, th: Thread): seq<Action> -> nat {
    actions => if c.Valid() && th.In(c) then Left(c, actions, th) else 0
  }

  lemma NeedsBounded(c: Config, actions: seq<Action>, th: Thread)
    requires c.Valid() && th.In(c)
    ensures Needs(c, th)(actions) <= c.words + 7
  {
  }

  lemma NothingNeeded(c: Config, actions: seq<Action>, th: Thread)
    requires c.Valid() && th.In(c) && Needs(c, th)(actions) == 0
    ensures th.Producing? ==> Run(c, actions).m.producer.Idle?
    ensures th.Consuming? ==> Run(c, actions).m.readers[th.k].at.Resting?
  {
  }

  lemma NeedsFall(c: Config, before: seq<Action>, after: seq<Action>, th: Thread)
    requires c.Valid() && th.In(c)
    ensures var left := Needs(c, th);
      forall i :: 0 <= i < |after| && left(before + after[..i]) > 0 ==>
        left(before + after[..i + 1]) + (if after[i] == th.Own() then 1 else 0) <= left(before + after[..i])
  {
    forall i | 0 <= i < |after| && Left(c, before + after[..i], th) > 0
      ensures Left(c, before + after[..i + 1], th) + (if after[i] == th.Own() then 1 else 0)
           <= Left(c, before + after[..i], th)
    {
      LeftFallsAt(c, before, after, th, i);
    }
  }

  /** The producer is never held up by a reader nor a reader by the producer: words + 7 own steps
      include a return, in any interleaving. */
  lemma {:induction false} WaitFree(c: Config, before: seq<Action>, after: seq<Action>, th: Thread)
    returns (n: nat)
    requires c.Valid() && th.In(c) && Owned(OwnSteps(after, th.Own())) >= c.words + 7
    ensures n <= |after|
    ensures th.Producing? ==> Run(c, before + after[..n]).m.producer.Idle?
    ensures th.Consuming? ==> Run(c, before + after[..n]).m.readers[th.k].at.Resting?
  {
    NeedsFall(c, before, after, th);
    NeedsBounded(c, before + after[..0], th);
    n := Returns(Needs(c, th), before, after, th.Own());
    NothingNeeded(c, before + after[..n], th);
  }
}
