/** MpmcWorkQueue's `push` and `pull` are wait-free: enough steps of its own bring a call to its return, whatever the
    other threads do and however they are interleaved. */
module WorkQueueWaitFree {
  import opened Tickets
  import opened WorkQueue
  import opened WaitFreedom

  datatype Thread = Producing(p: nat) | Consuming(k: nat) {
    predicate In(c: Config) { if Producing? then p < c.threads else k < c.consumers }

    /** The action by which this thread, once inside a call, takes its next step. */
    function Own(): Action { if Producing? then Resume(p) else Advance(k) }
  }

  /** Own steps a producer still needs: the scan passes at most `capacity` slots. */
  function PushLeft(c: Config, x: Producer): (n: nat)
    requires x.Writing? ==> x.done <= c.words
  {
    match x
    case Idle => 0
    case Scanning(_, _, _, scanned) => c.words + 7 + if scanned < c.capacity then c.capacity - scanned else 0
    case Rechecking(_, _) => c.words + 6
    case StoringFrontier(_, _) => c.words + 5
    case LoadingTicket(_) => c.words + 4
    case LoadedTicket(_, _) => c.words + 3
    case Dropping(_) => 1
    case Admitted(_) => c.words + 2
    case Writing(_, _, k) => c.words - k + 1
  }

  /** Own steps a consumer still needs in `pull` or `isDrained`. */
  function PullLeft(c: Config, at: Position): (n: nat)
    requires at.Reading? ==> |at.out| <= c.words
  {
    match at
    case Resting => 0
    case LoadedHead(_) => c.words + 6
    case Claiming => c.words + 5
    case AtGate => c.words + 4
    case Reading(out) => c.words - |out| + 1
    case CountingTorn => 1
    case CheckingClosed => 3
    case LoadingFinal => 2
    case CountingStrand => 1
    case DrainClosed => 2
    case DrainTicket(_) => 1
  }

  function StepsLeft(c: Config, m: Machine, th: Thread): (n: nat)
    requires m.Shaped(c) && th.In(c)
  {
    if th.Producing? then PushLeft(c, m.producers[th.p])
    else
      assert ConsumerShaped(c, m.consumers[th.k]);
      PullLeft(c, m.consumers[th.k].at)
  }

  /** The promise to a producer lasts while the stream is open: after `close` it may not claim. */
  predicate Served(m: Machine, th: Thread) {
    th.Producing? ==> !m.closed
  }

  lemma StepsFall(c: Config, m: Machine, a: Action, th: Thread)
    requires m.Shaped(c) && th.In(c) && Served(m, th) && StepsLeft(c, m, th) > 0
    ensures StepsLeft(c, Step(c, m, a), th) + (if a == th.Own() then 1 else 0) <= StepsLeft(c, m, th)
  {
    if th.Producing? {
      PushFalls(c, m, a, th.p);
    } else {
      PullFalls(c, m, a, th.k);
    }
  }

  lemma PushFalls(c: Config, m: Machine, a: Action, p: nat)
    requires m.Shaped(c) && p < c.threads && !m.closed && PushLeft(c, m.producers[p]) > 0
    ensures PushLeft(c, Step(c, m, a).producers[p]) + (if a == Resume(p) then 1 else 0) <= PushLeft(c, m.producers[p])
  {
  }

  lemma PullFalls(c: Config, m: Machine, a: Action, k: nat)
    requires m.Shaped(c) && k < c.consumers && StepsLeft(c, m, Consuming(k)) > 0
    ensures StepsLeft(c, Step(c, m, a), Consuming(k)) + (if a == Advance(k) then 1 else 0)
         <= StepsLeft(c, m, Consuming(k))
  {
    assert ConsumerShaped(c, m.consumers[k]);
  }

  function Left(c: Config, actions: seq<Action>, th: Thread): nat
    requires c.Valid() && th.In(c)
  {
    StepsLeft(c, Run(c, actions).m, th)
  }

  lemma LeftFalls(c: Config, actions: seq<Action>, a: Action, th: Thread)
    requires c.Valid() && th.In(c) && Served(Run(c, actions).m, th) && Left(c, actions, th) > 0
    ensures Left(c, actions + [a], th) + (if a == th.Own() then 1 else 0) <= Left(c, actions, th)
  {
    assert (actions + [a])[..|actions|] == actions;
    StepsFall(c, Run(c, actions).m, a, th);
  }

  /** A stream that is open at the end was open all along. */
  lemma {:induction false} OpenBefore(c: Config, actions: seq<Action>, i: nat)
    requires c.Valid() && i <= |actions| && !Run(c, actions).m.closed
    ensures !Run(c, actions[..i]).m.closed
    decreases |actions|
  {
    if i == |actions| {
      assert actions[..i] == actions;
    } else {
      OpenStep(c, Run(c, actions[..|actions| - 1]).m, actions[|actions| - 1]);
      OpenBefore(c, actions[..|actions| - 1], i);
      assert actions[..|actions| - 1][..i] == actions[..i];
    }
  }

  lemma OpenStep(c: Config, m: Machine, a: Action)
    requires m.Shaped(c)
    ensures m.closed ==> Step(c, m, a).closed
  {
  }

  /** What the thread still needs, as a function of the run. */
  function Needs(c: Config, th: Thread): seq<Action> -> nat {
    actions => if c.Valid() && th.In(c) then Left(c, actions, th) else 0
  }

  lemma {:induction false} LeftFallsAt(c: Config, before: seq<Action>, after: seq<Action>, th: Thread, i: nat)
    requires c.Valid() && th.In(c) && Served(Run(c, before + after).m, th) && i < |after|
    requires Left(c, before + after[..i], th) > 0
    ensures Left(c, before + after[..i + 1], th) + (if after[i] == th.Own() then 1 else 0)
         <= Left(c, before + after[..i], th)
  {
    var now := before + after[..i];
    assert before + after[..i + 1] == now + [after[i]];
    if th.Producing? {
      assert (before + after)[..|before| + i] == now;
      OpenBefore(c, before + after, |before| + i);
    }
    LeftFalls(c, now, after[i], th);
  }

  lemma ZeroIsRest(c: Config, m: Machine, th: Thread)
    requires m.Shaped(c) && th.In(c) && StepsLeft(c, m, th) == 0
    ensures if th.Producing? then m.producers[th.p].Idle? else m.consumers[th.k].at.Resting?
  {
    if th.Consuming? {
      assert ConsumerShaped(c, m.consumers[th.k]);
    }
  }

  lemma LeftBound(c: Config, m: Machine, th: Thread)
    requires m.Shaped(c) && th.In(c)
    ensures StepsLeft(c, m, th) <= c.words + 7 + if th.Producing? then c.capacity else 0
  {
    if th.Consuming? {
      assert ConsumerShaped(c, m.consumers[th.k]);
    }
  }

  /** Of a thread's own steps, words + 7 and for a producer `capacity` more include a return, in both readings of the
      arithmetic and in any interleaving. */
  lemma {:induction false} WaitFree(c: Config, before: seq<Action>, after: seq<Action>, th: Thread)
    returns (n: nat)
    requires c.Valid() && th.In(c) && Served(Run(c, before + after).m, th)
    requires Owned(OwnSteps(after, th.Own())) >= c.words + 7 + if th.Producing? then c.capacity else 0
    ensures n <= |after|
    ensures th.Producing? ==> Run(c, before + after[..n]).m.producers[th.p].Idle?
    ensures th.Consuming? ==> Run(c, before + after[..n]).m.consumers[th.k].at.Resting?
  {
    var left := Needs(c, th);
    forall i | 0 <= i < |after| && left(before + after[..i]) > 0
      ensures left(before + after[..i + 1]) + (if after[i] == th.Own() then 1 else 0) <= left(before + after[..i])
    {
      LeftFallsAt(c, before, after, th, i);
    }
    LeftBound(c, Run(c, before + after[..0]).m, th);
    n := Returns(left, before, after, th.Own());
    ZeroIsRest(c, Run(c, before + after[..n]).m, th);
  }
}
