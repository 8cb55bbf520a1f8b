/** `producerCount` is the one way to break MpmcRing: with one pushing thread more than declared, some
    interleaving overruns the ring; with no more than declared, none does. */
module FanInSlack {
  import opened Tickets
  import opened FanInRing
  import opened FanInSafety

  function Blank(c: Config): Frame { seq(c.words, _ => 0) }

  /** No call is open, nothing was consumed, and n tickets are claimed. */
  predicate Quiet(c: Config, m: Machine, n: nat) {
    m.Shaped(c) && m.enqueueTicket == n && m.dequeuePos == 0
    && forall p :: 0 <= p < c.threads ==> m.producers[p].Idle?
  }

  /** Threads below `admitted` and not below `claimed` passed the check while n tickets were claimed. */
  predicate Bunched(c: Config, m: Machine, n: nat, claimed: nat, admitted: nat) {
    && m.Shaped(c) && m.enqueueTicket == n + claimed && m.dequeuePos == 0
    && (forall p :: claimed <= p < admitted && p < c.threads ==> m.producers[p] == Admitted(Blank(c), n))
    && (forall p :: admitted <= p < c.threads ==> m.producers[p].Idle?)
  }

  lemma Extend(c: Config, actions: seq<Action>, a: Action)
    requires c.Valid()
    ensures Run(c, actions + [a]) == Next(c, Run(c, actions), a)
  {
    assert (actions + [a])[..|actions|] == actions;
  }

  /** Thread 0 finishes the write it has begun. */
  lemma {:induction false} FinishWrite(c: Config, actions: seq<Action>, n: nat) returns (more: seq<Action>)
    requires c.Valid() && c.threads > 0
    requires var m := Run(c, actions).m;
      && m.producers[0].Writing? && m.enqueueTicket == n && m.dequeuePos == 0
      && forall p :: 0 < p < c.threads ==> m.producers[p].Idle?
    ensures Quiet(c, Run(c, more).m, n)
    decreases c.words - Run(c, actions).m.producers[0].done
  {
    Extend(c, actions, Resume(0));
    more := actions + [Resume(0)];
    if Run(c, actions).m.producers[0].done < c.words {
      more := FinishWrite(c, more, n);
    }
  }

  /** Alone, thread 0 can claim n tickets as long as the envelope admits the last of them. */
  lemma {:induction false} Fill(c: Config, n: nat) returns (actions: seq<Action>)
    requires c.Valid() && c.arith.Unbounded? && c.threads > 0 && n <= c.capacity - c.producerCount
    ensures Quiet(c, Run(c, actions).m, n)
    decreases n
  {
    if n == 0 {
      actions := [];
    } else {
      var a := Fill(c, n - 1);
      Extend(c, a, Push(0, Blank(c)));
      var b := a + [Push(0, Blank(c))];
      Extend(c, b, Resume(0));
      var d := b + [Resume(0)];
      Extend(c, d, Resume(0));
      actions := FinishWrite(c, d + [Resume(0)], n);
    }
  }

  lemma {:induction false} AdmitAll(c: Config, k: nat) returns (actions: seq<Action>)
    requires c.Valid() && c.arith.Unbounded? && 0 <= k <= c.threads && c.threads > 0
    ensures Bunched(c, Run(c, actions).m, c.capacity - c.producerCount, 0, k)
    decreases k
  {
    if k == 0 {
      actions := Fill(c, c.capacity - c.producerCount);
    } else {
      var a := AdmitAll(c, k - 1);
      Extend(c, a, Push(k - 1, Blank(c)));
      var b := a + [Push(k - 1, Blank(c))];
      Extend(c, b, Resume(k - 1));
      actions := b + [Resume(k - 1)];
    }
  }

  lemma {:induction false} ClaimAll(c: Config, k: nat, claimed: nat) returns (actions: seq<Action>)
    requires c.Valid() && c.arith.Unbounded? && claimed <= k <= c.threads && c.threads > 0
    ensures Bunched(c, Run(c, actions).m, c.capacity - c.producerCount, claimed, k)
    decreases claimed
  {
    if claimed == 0 {
      actions := AdmitAll(c, k);
    } else {
      var a := ClaimAll(c, k, claimed - 1);
      Extend(c, a, Resume(claimed - 1));
      actions := a + [Resume(claimed - 1)];
    }
  }

  /** The envelope holds in every run if and only if no more threads push than were declared. */
  lemma {:induction false} ProducerCountExact(c: Config)
    requires c.Valid() && c.arith.Unbounded?
    ensures c.threads <= c.producerCount
      <==> forall actions: seq<Action> ::
             Run(c, actions).m.enqueueTicket - Run(c, actions).m.dequeuePos <= c.capacity
  {
    if c.threads <= c.producerCount {
      forall actions: seq<Action>
        ensures Run(c, actions).m.enqueueTicket - Run(c, actions).m.dequeuePos <= c.capacity
      {
        RunKeeps(c, actions);
      }
    } else {
      var k := c.producerCount + 1;
      var actions := ClaimAll(c, k, k);
      assert Run(c, actions).m.enqueueTicket - Run(c, actions).m.dequeuePos == c.capacity + 1;
    }
  }
}
