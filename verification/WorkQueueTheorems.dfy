/** What MpmcWorkQueue promises, over every run with unbounded tickets. */
module WorkQueueTheorems {
  import opened Tickets
  import opened WorkQueue
  import opened WorkQueueInvariant
  import opened WorkQueueSafety
  import Pigeonhole

  /** The first ticket from n on that has not been delivered. */
  function FirstUndelivered(freed: set<int>, n: nat): (f: nat)
    ensures f >= n && f !in freed && forall t :: n <= t < f ==> t in freed
    decreases |freed|
  {
    if n !in freed then n
    else
      var f := FirstUndelivered(freed - {n}, n + 1);
      assert forall t :: n <= t < f ==> t in freed by {
        forall t | n <= t < f ensures t in freed {
          assert t == n || t in freed - {n};
        }
      }
      f
  }

  /** Reuse envelope: never more than `capacity` tickets past the first undelivered one, however stale
      the producers' loads; and neither the frontier lane nor a value about to be stored in it is ever
      past that ticket, although the lane itself may move backwards. */
  lemma {:induction false} ReuseEnvelope(c: Config, actions: seq<Action>)
    requires c.Valid() && c.arith.Unbounded? && c.threads <= c.producerCount
    ensures var s := Run(c, actions);
      var first := FirstUndelivered(s.l.freed, 0);
      && s.m.enqueueTicket <= first + c.capacity
      && 0 <= s.m.frontier <= first <= s.m.enqueueTicket
      && (forall p :: 0 <= p < c.threads && s.m.producers[p].StoringFrontier? ==> s.m.producers[p].f <= first)
  {
    RunKeeps(c, actions);
    var s := Run(c, actions);
    forall p | 0 <= p < c.threads && s.m.producers[p].StoringFrontier?
      ensures s.m.producers[p].f <= FirstUndelivered(s.l.freed, 0)
    {
      assert ProducerOk(c, s, p);
    }
    assert s.m.enqueueTicket !in s.l.freed;
  }

  /** Exactly once: no two consumers hold or have got the same ticket; each consumer's tickets
      strictly increase; each frame is word for word the one pushed under its ticket; the "slot reused
      under me" guard never fires. */
  lemma {:induction false} ExactlyOnce(c: Config, actions: seq<Action>)
    requires c.Valid() && c.arith.Unbounded? && c.threads <= c.producerCount
    ensures var s := Run(c, actions);
      && (forall k: nat :: k < c.consumers ==> OutcomeFaithful(s.l, s.l.outcomes[k]))
      && (forall j: nat, k: nat, t :: j < c.consumers && k < c.consumers && j != k && Has(s, j, t) ==> !Has(s, k, t))
      && (forall k: nat :: k < c.consumers && s.m.consumers[k].held.Claim?
            ==> s.m.consumers[k].held.ticket !in s.l.outcomes[k].tickets)
      && s.m.tornGuarded == 0
      && (forall k :: 0 <= k < c.consumers ==> !s.m.consumers[k].at.CountingTorn?)
  {
    RunKeeps(c, actions);
    var s := Run(c, actions);
    forall k: nat | k < c.consumers
      ensures OutcomeFaithful(s.l, s.l.outcomes[k]) && !s.m.consumers[k].at.CountingTorn?
      ensures forall t :: Has(s, k, t) ==> 0 <= t < |s.l.claimants| && s.l.claimants[t] == k
      ensures s.m.consumers[k].held.Claim? ==> s.m.consumers[k].held.ticket !in s.l.outcomes[k].tickets
    {
      assert ConsumerOk(c, s, k);
    }
  }

  /** Consumer k holds ticket t or was handed it. */
  ghost predicate Has(s: State, k: nat, t: int)
    requires k < |s.m.consumers| && k < |s.l.outcomes|
  {
    s.m.consumers[k].held == Claim(t) || t in s.l.outcomes[k].tickets
  }

  ghost predicate SomebodyHas(c: Config, s: State, t: int)
    requires s.m.Shaped(c) && |s.l.outcomes| == c.consumers
  {
    exists k: nat :: k < c.consumers && Has(s, k, t)
  }

  ghost predicate OutcomeFaithful(l: Log, o: Outcome) {
    && |o.frames| == |o.tickets|
    && (forall i, j :: 0 <= i < j < |o.tickets| ==> o.tickets[i] < o.tickets[j])
    && (forall i :: 0 <= i < |o.tickets| ==>
          0 <= o.tickets[i] < |l.frames| && o.frames[i] == l.frames[o.tickets[i]])
  }

  /** The consumers' unfused emptiness check overshoots the producers by less than one claim each. */
  lemma {:induction false} ClaimOvershoot(c: Config, actions: seq<Action>)
    requires c.Valid() && c.arith.Unbounded? && c.threads <= c.producerCount && c.consumers >= 1
    ensures var s := Run(c, actions);
      && s.m.dequeueTicket <= s.m.enqueueTicket + c.consumers - 1
      && 0 <= s.m.strandedClaims <= c.consumers - 1
      && (forall d :: d in s.l.stranded ==> d >= s.m.enqueueTicket)
  {
    RunKeeps(c, actions);
    var s := Run(c, actions);
    var w, r := s.m.enqueueTicket, s.m.dequeueTicket;
    if r > w {
      assert Pigeonhole.DistinctFrom(s.l.claimants, w - 1);
      Pigeonhole.AtMostOneEach(s.l.claimants, w - 1, c.consumers);
      Between(s.l.stranded, w, r);
    } else {
      Between(s.l.stranded, w, w);
    }
  }

  /** A set inside [lo, hi) has at most hi - lo elements. */
  lemma {:induction false} Between(s: set<int>, lo: int, hi: int)
    requires lo <= hi && forall x :: x in s ==> lo <= x < hi
    ensures |s| <= hi - lo
    decreases hi - lo
  {
    if lo < hi {
      Between(s - {hi - 1}, lo, hi - 1);
    } else {
      assert s == {};
    }
  }

  // ----- accounting -----

  /** Pushes that have neither claimed a ticket nor counted a drop. */
  function Pending(ps: seq<Producer>): (n: nat) {
    if ps == [] then 0
    else Pending(ps[1..]) + if ps[0].Idle? || ps[0].Writing? then 0 else 1
  }

  lemma {:induction false} PendingUpdate(ps: seq<Producer>, p: nat, x: Producer)
    requires p < |ps|
    ensures Pending(ps[p := x]) + Pending([ps[p]]) == Pending(ps) + Pending([x])
  {
    if p == 0 {
      assert ps[p := x][1..] == ps[1..];
    } else {
      PendingUpdate(ps[1..], p - 1, x);
      assert ps[p := x][1..] == ps[1..][p - 1 := x];
    }
  }

  lemma {:induction false} PendingNone(ps: seq<Producer>)
    requires forall p :: 0 <= p < |ps| ==> ps[p].Idle?
    ensures Pending(ps) == 0
  {
    if ps != [] {
      PendingNone(ps[1..]);
    }
  }

  lemma {:induction false} StepConserves(c: Config, s: State, a: Action)
    requires s.m.Shaped(c) && |s.l.outcomes| == c.consumers && c.arith.Unbounded?
    ensures var s' := Next(c, s, a);
      s'.l.attempts - |s'.l.frames| - s'.m.droppedFrames - Pending(s'.m.producers)
      == s.l.attempts - |s.l.frames| - s.m.droppedFrames - Pending(s.m.producers)
  {
    match a
    case Push(p, frame) =>
      if p < c.threads && s.m.producers[p].Idle? && |frame| == c.words {
        PendingUpdate(s.m.producers, p, Scanning(frame, s.m.frontier, s.m.frontier, 0));
      }
    case Resume(p) =>
      if p < c.threads {
        ResumeConserves(c, s, p);
      }
    case _ =>
  }

  lemma {:induction false} ResumeConserves(c: Config, s: State, p: nat)
    requires s.m.Shaped(c) && |s.l.outcomes| == c.consumers && c.arith.Unbounded? && p < c.threads
    ensures var s' := Next(c, s, Resume(p));
      s'.l.attempts - |s'.l.frames| - s'.m.droppedFrames - Pending(s'.m.producers)
      == s.l.attempts - |s.l.frames| - s.m.droppedFrames - Pending(s.m.producers)
  {
    PendingUpdate(s.m.producers, p, ProducerStep(c, s.m, p).producers[p]);
  }

  /** Every attempted push is claimed, dropped or still undecided. */
  lemma {:induction false} AttemptsConserved(c: Config, actions: seq<Action>)
    requires c.Valid() && c.arith.Unbounded?
    ensures var s := Run(c, actions);
      s.l.attempts == |s.l.frames| + s.m.droppedFrames + Pending(s.m.producers)
    decreases |actions|
  {
    if actions == [] {
      PendingNone(Run(c, []).m.producers);
    } else {
      AttemptsConserved(c, actions[..|actions| - 1]);
      StepConserves(c, Run(c, actions[..|actions| - 1]), actions[|actions| - 1]);
    }
  }

  /** End of stream: once every consumer has reported `isDrained`, the delivered tickets are exactly
      [0, enqueueTicket), nobody holds a claim, and with no push open every attempt was either
      delivered or counted as dropped. */
  lemma {:induction false} EndOfStream(c: Config, actions: seq<Action>)
    requires c.Valid() && c.arith.Unbounded? && c.threads <= c.producerCount && c.consumers >= 1
    requires forall k :: 0 <= k < c.consumers ==> Run(c, actions).m.consumers[k].drained
    ensures var s := Run(c, actions);
      && s.m.closed
      && (forall t :: t in s.l.freed <==> 0 <= t < s.m.enqueueTicket)
      && (forall k :: 0 <= k < c.consumers ==> s.m.consumers[k].held.Nothing?)
      && (forall t :: 0 <= t < s.m.enqueueTicket ==> SomebodyHas(c, s, t))
      && ((forall p :: 0 <= p < c.threads ==> s.m.producers[p].Idle?)
          ==> s.l.attempts == |s.l.freed| + s.m.droppedFrames)
  {
    RunKeeps(c, actions);
    var s := Run(c, actions);
    forall k: nat | k < c.consumers
      ensures s.m.closed && s.m.enqueueTicket <= s.m.dequeueTicket && s.m.consumers[k].held.Nothing?
    {
      assert ConsumerOk(c, s, k);
    }
    assert s.m.consumers[0].drained;
    forall t | 0 <= t < s.m.enqueueTicket
      ensures t in s.l.freed && SomebodyHas(c, s, t)
    {
      assert ClaimCovered(c, s, t);
      assert t in s.l.freed;
      assert Has(s, s.l.claimants[t], t);
    }
    if forall p :: 0 <= p < c.threads ==> s.m.producers[p].Idle? {
      AttemptsConserved(c, actions);
      PendingNone(s.m.producers);
      CountAll(s.l.freed, s.m.enqueueTicket);
    }
  }

  lemma {:induction false} CountAll(s: set<int>, n: nat)
    requires forall t :: t in s <==> 0 <= t < n
    ensures |s| == n
    decreases n
  {
    if n == 0 {
      assert forall x :: x !in s;
      assert s == {};
    } else {
      CountAll(s - {n - 1}, n - 1);
    }
  }
}
