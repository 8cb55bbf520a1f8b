/** What MpmcRing promises, over every run, plus the exact role of `producerCount`. */
module FanInTheorems {
  import opened Tickets
  import opened FanInRing
  import opened FanInSafety
  import opened WaitFreedom

  /** In-flight frames never exceed the capacity; the overload counters stay 0; and what `pull`
      returned is exactly the pushed frames in ticket order: no gap, duplicate or torn word. */
  lemma {:induction false} DeliversInTicketOrder(c: Config, actions: seq<Action>)
    requires c.Valid() && c.arith.Unbounded? && c.threads <= c.producerCount
    ensures var s := Run(c, actions);
      && 0 <= s.m.enqueueTicket - s.m.dequeuePos <= c.capacity
      && |s.l.frames| == s.m.enqueueTicket && |s.l.delivered| == s.m.dequeuePos
      && s.l.delivered == s.l.frames[..s.m.dequeuePos]
      && s.m.overrunLost == 0 && s.m.tornFrames == 0
  {
    RunKeeps(c, actions);
  }

  /** The generation test answers "head published?" exactly, in every run. */
  lemma {:induction false} GateExact(c: Config, actions: seq<Action>)
    requires c.Valid() && c.arith.Unbounded? && c.threads <= c.producerCount
    requires Run(c, actions).m.consumer.AtGate?
    ensures var s := Run(c, actions);
      var next := Step(c, s.m, Pull).consumer;
      && (next.Reading? <==> Published(c, s, s.m.dequeuePos))
      && (next.Resting? <==> !Published(c, s, s.m.dequeuePos))
  {
    RunKeeps(c, actions);
    var s := Run(c, actions);
    assert SlotOk(c, s, s.m.dequeuePos);
  }

  // ----- accounting -----

  /** Pushes that have neither claimed a ticket nor counted a drop. */
  function Pending(ps: seq<Producer>): (n: nat)
  {
    if ps == [] then 0
    else Pending(ps[1..]) + if ps[0].LoadedTicket? || ps[0].Admitted? || ps[0].Dropping? then 1 else 0
  }

  lemma {:induction false} PendingUpdate(ps: seq<Producer>, p: nat, x: Producer)
    requires p < |ps|
    ensures Pending(ps[p := x]) + Pending([ps[p]]) == Pending(ps) + Pending([x])
  {
    if p == 0 {
      assert ps[p := x][1..] == ps[1..];
    } else {
      PendingUpdate(ps[1..], p - 1, x);
      assert ps[p := x][1..] == ps[1..][p - 1 := x];
    }
  }

  lemma {:induction false} PendingNone(ps: seq<Producer>)
    requires forall p :: 0 <= p < |ps| ==> ps[p].Idle?
    ensures Pending(ps) == 0
  {
    if ps != [] {
      PendingNone(ps[1..]);
    }
  }

  /** Every attempted push is claimed, dropped or still undecided: none is forgotten. */
  lemma {:induction false} AttemptsConserved(c: Config, actions: seq<Action>)
    requires c.Valid() && c.arith.Unbounded?
    ensures var s := Run(c, actions);
      s.l.attempts == |s.l.frames| + s.m.droppedFrames + Pending(s.m.producers)
    decreases |actions|
  {
    if actions == [] {
      PendingNone(Run(c, []).m.producers);
    } else {
      AttemptsConserved(c, actions[..|actions| - 1]);
      StepConserves(c, Run(c, actions[..|actions| - 1]), actions[|actions| - 1]);
    }
  }

  lemma {:induction false} StepConserves(c: Config, s: State, a: Action)
    requires s.m.Shaped(c) && c.arith.Unbounded?
    ensures var s' := Next(c, s, a);
      s'.l.attempts - |s'.l.frames| - s'.m.droppedFrames - Pending(s'.m.producers)
      == s.l.attempts - |s.l.frames| - s.m.droppedFrames - Pending(s.m.producers)
  {
    if !a.Pull? && a.p < c.threads {
      PendingUpdate(s.m.producers, a.p, Step(c, s.m, a).producers[a.p]);
    }
  }

  // ----- wait-freedom -----

  datatype Thread = Producing(p: nat) | Consuming {
    predicate In(c: Config) { Producing? ==> p < c.threads }

    /** The action by which this thread, once inside a call, takes its next step. */
    function Own(): Action { if Producing? then Resume(p) else Pull }
  }

  /** How many of its own steps a thread still needs to return, whatever the others do. */
  function StepsLeft(c: Config, m: Machine, th: Thread): (n: nat)
    requires m.Shaped(c) && th.In(c)
  {
    if th.Producing? then
      match m.producers[th.p]
      case Idle => 0
      case LoadedTicket(_, _) => c.words + 3
      case Dropping(_) => 1
      case Admitted(_, _) => c.words + 2
      case Writing(_, _, k) => c.words - k + 1
    else
      match m.consumer
      case Resting => 0
      case LoadedHead(_) => c.words + 6
      case CountingLoss(_, _, _) => c.words + 5
      case AtGate(_, _) => c.words + 4
      case Reading(_, out) => c.words - |out| + 1
      case CountingOverrun(_) => 3
      case CountingTorn(_) => 2
      case SkippingHead(_) => 1
      case StoringCatchUp(_) => 1
  }

  /** A call in progress is brought nearer its return by each own step and never set back by others. */
  lemma StepsFall(c: Config, m: Machine, a: Action, th: Thread)
    requires m.Shaped(c) && th.In(c) && StepsLeft(c, m, th) > 0
    ensures StepsLeft(c, Step(c, m, a), th) + (if a == th.Own() then 1 else 0)
            <= StepsLeft(c, m, th)
  {
  }

  function Left(c: Config, actions: seq<Action>, th: Thread): nat
    requires c.Valid() && th.In(c)
  {
    StepsLeft(c, Run(c, actions).m, th)
  }

  lemma LeftFalls(c: Config, actions: seq<Action>, a: Action, th: Thread)
    requires c.Valid() && th.In(c) && Left(c, actions, th) > 0
    ensures Left(c, actions + [a], th) + (if a == th.Own() then 1 else 0) <= Left(c, actions, th)
  {
    assert (actions + [a])[..|actions|] == actions;
    StepsFall(c, Run(c, actions).m, a, th);
  }

  lemma LeftFallsAt(c: Config, before: seq<Action>, after: seq<Action>, th: Thread, i: nat)
    requires c.Valid() && th.In(c) && i < |after| && Left(c, before + after[..i], th) > 0
    ensures Left(c, before + after[..i + 1], th) + (if after[i] == th.Own() then 1 else 0)
         <= Left(c, before + after[..i], th)
  {
    assert before + after[..i + 1] == (before + after[..i]) + [after[i]];
    LeftFalls(c, before + after[..i], after[i], th);
  }

  /** What the thread still needs, as a function of the run. */
  function Needs(c: Config, th: Thread): seq<Action> -> nat {
    actions => if c.Valid() && th.In(c) then Left(c, actions, th) else 0
  }

  lemma NeedsBounded(c: Config, actions: seq<Action>, th: Thread)
    requires c.Valid() && th.In(c)
    ensures Needs(c, th)(actions) <= c.words + 6
  {
  }

  lemma NothingNeeded(c: Config, actions: seq<Action>, th: Thread)
    requires c.Valid() && th.In(c) && Needs(c, th)(actions) == 0
    ensures th.Producing? ==> Run(c, actions).m.producers[th.p].Idle?
    ensures th.Consuming? ==> Run(c, actions).m.consumer.Resting?
  {
  }

  lemma NeedsFall(c: Config, before: seq<Action>, after: seq<Action>, th: Thread)
    requires c.Valid() && th.In(c)
    ensures var left := Needs(c, th);
      forall i :: 0 <= i < |after| && left(before + after[..i]) > 0 ==>
        left(before + after[..i + 1]) + (if after[i] == th.Own() then 1 else 0) <= left(before + after[..i])
  {
    forall i | 0 <= i < |after| && Left(c, before + after[..i], th) > 0
      ensures Left(c, before + after[..i + 1], th) + (if after[i] == th.Own() then 1 else 0)
           <= Left(c, before + after[..i], th)
    {
      LeftFallsAt(c, before, after, th, i);
    }
  }

  /** `push` and `pull` are wait-free, in both readings of the arithmetic: give a thread words + 6
      steps of its own, interleaved in any way with the others' steps, and it has returned. */
  lemma {:induction false} WaitFree(c: Config, before: seq<Action>, after: seq<Action>, th: Thread)
    returns (n: nat)
    requires c.Valid() && th.In(c) && Owned(OwnSteps(after, th.Own())) >= c.words + 6
    ensures n <= |after|
    ensures th.Producing? ==> Run(c, before + after[..n]).m.producers[th.p].Idle?
    ensures th.Consuming? ==> Run(c, before + after[..n]).m.consumer.Resting?
  {
    NeedsFall(c, before, after, th);
    NeedsBounded(c, before + after[..0], th);
    n := Returns(Needs(c, th), before, after, th.Own());
    NothingNeeded(c, before + after[..n], th);
  }
}
