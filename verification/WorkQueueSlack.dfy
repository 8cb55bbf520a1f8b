/** `producerCount` is the one way to break the work queue's reuse envelope: with one pushing thread more than
    declared, some interleaving claims a ticket past it; with no more than declared, none does. */
module WorkQueueSlack {
  import opened Tickets
  import opened WorkQueue
  import opened WorkQueueTheorems

  function Blank(c: Config): Frame { seq(c.words, _ => 0) }

  /** Nothing was consumed or closed, and n tickets are claimed. */
  predicate Calm(c: Config, s: State, n: nat) {
    && s.m.Shaped(c) && |s.l.outcomes| == c.consumers
    && s.m.enqueueTicket == n && s.m.frontier == 0 && !s.m.closed
    && s.m.gen[0] < c.capacity && s.l.freed == {}
  }

  predicate Quiet(c: Config, s: State, n: nat) {
    Calm(c, s, n) && forall p :: 0 <= p < c.threads ==> s.m.producers[p].Idle?
  }

  /** Threads below `admitted` and not below `claimed` passed the check while n tickets were claimed. */
  predicate Bunched(c: Config, s: State, n: nat, claimed: nat, admitted: nat) {
    && Calm(c, s, n + claimed)
    && (forall p :: claimed <= p < admitted && p < c.threads ==> s.m.producers[p] == Admitted(Blank(c)))
    && (forall p :: admitted <= p < c.threads ==> s.m.producers[p].Idle?)
  }

  lemma Extend(c: Config, actions: seq<Action>, a: Action)
    requires c.Valid()
    ensures Run(c, actions + [a]) == Next(c, Run(c, actions), a)
  {
    assert (actions + [a])[..|actions|] == actions;
  }

  /** Only thread p moves, and the queue stays calm. */
  predicate Steps(c: Config, s: State, s': State, p: nat, next: Producer) {
    && s.m.Shaped(c) && p < c.threads
    && s'.m.producers == s.m.producers[p := next]
  }

  lemma Idled(c: Config, s: State, n: nat, p: nat, frame: Frame)
    requires Calm(c, s, n) && c.arith.Unbounded? && p < c.threads && s.m.producers[p].Idle? && |frame| == c.words
    ensures var s' := Next(c, s, Push(p, frame)); Calm(c, s', n) && Steps(c, s, s', p, Scanning(frame, 0, 0, 0))
  {
  }

  /** The scan stops at once: ticket 0 has not been delivered. */
  lemma Scanned(c: Config, s: State, n: nat, p: nat, frame: Frame)
    requires Calm(c, s, n) && c.arith.Unbounded? && p < c.threads && s.m.producers[p] == Scanning(frame, 0, 0, 0)
    ensures var s' := Next(c, s, Resume(p)); Calm(c, s', n) && Steps(c, s, s', p, LoadingTicket(frame))
  {
    FirstLap(0, c.capacity);
  }

  lemma Loaded(c: Config, s: State, n: nat, p: nat, frame: Frame)
    requires Calm(c, s, n) && c.arith.Unbounded? && p < c.threads && s.m.producers[p] == LoadingTicket(frame)
    ensures var s' := Next(c, s, Resume(p)); Calm(c, s', n) && Steps(c, s, s', p, LoadedTicket(frame, n))
  {
  }

  lemma Checked(c: Config, s: State, n: nat, p: nat, frame: Frame)
    requires Calm(c, s, n) && c.arith.Unbounded? && p < c.threads && s.m.producers[p] == LoadedTicket(frame, n)
    requires n <= c.capacity - c.producerCount
    ensures var s' := Next(c, s, Resume(p)); Calm(c, s', n) && Steps(c, s, s', p, Admitted(frame))
  {
  }

  lemma Claimed(c: Config, s: State, n: nat, p: nat, frame: Frame)
    requires Calm(c, s, n) && c.arith.Unbounded? && p < c.threads && s.m.producers[p] == Admitted(frame)
    ensures var s' := Next(c, s, Resume(p)); Calm(c, s', n + 1) && Steps(c, s, s', p, Writing(frame, n, 0))
  {
  }

  lemma Written(c: Config, s: State, n: nat, p: nat, frame: Frame, t: nat, k: nat)
    requires Calm(c, s, n) && c.arith.Unbounded? && p < c.threads && s.m.producers[p] == Writing(frame, t, k)
    requires t < c.capacity
    ensures var s' := Next(c, s, Resume(p));
      && Calm(c, s', n)
      && Steps(c, s, s', p, if k < c.words then Writing(frame, t, k + 1) else Idle)
  {
    FirstLap(t, c.capacity);
  }

  /** From rest, thread p opens a push and passes the check. */
  lemma {:induction false} Admit(c: Config, before: seq<Action>, n: nat, p: nat) returns (actions: seq<Action>)
    requires c.Valid() && c.arith.Unbounded? && p < c.threads && n <= c.capacity - c.producerCount
    requires Calm(c, Run(c, before), n) && Run(c, before).m.producers[p].Idle?
    ensures Calm(c, Run(c, actions), n)
    ensures Steps(c, Run(c, before), Run(c, actions), p, Admitted(Blank(c)))
  {
    var f, s0 := Blank(c), Run(c, before);
    Extend(c, before, Push(p, f));
    Idled(c, s0, n, p, f);
    var a1 := before + [Push(p, f)];
    Extend(c, a1, Resume(p));
    Scanned(c, Run(c, a1), n, p, f);
    var a2 := a1 + [Resume(p)];
    Extend(c, a2, Resume(p));
    Loaded(c, Run(c, a2), n, p, f);
    var a3 := a2 + [Resume(p)];
    Extend(c, a3, Resume(p));
    Checked(c, Run(c, a3), n, p, f);
    actions := a3 + [Resume(p)];
    assert Run(c, actions).m.producers == s0.m.producers[p := Admitted(f)];
  }

  lemma {:induction false} FinishWrite(c: Config, before: seq<Action>, n: nat, t: nat, k: nat)
    returns (more: seq<Action>)
    requires c.Valid() && c.arith.Unbounded? && c.threads > 0 && t < c.capacity && k <= c.words
    requires Calm(c, Run(c, before), n) && Run(c, before).m.producers[0] == Writing(Blank(c), t, k)
    requires forall p :: 0 < p < c.threads ==> Run(c, before).m.producers[p].Idle?
    ensures Quiet(c, Run(c, more), n)
    decreases c.words - k
  {
    Extend(c, before, Resume(0));
    Written(c, Run(c, before), n, 0, Blank(c), t, k);
    more := before + [Resume(0)];
    if k < c.words {
      more := FinishWrite(c, more, n, t, k + 1);
    }
  }

  /** Alone, thread 0 can claim n tickets as long as the envelope admits the last of them. */
  lemma {:induction false} Fill(c: Config, n: nat) returns (actions: seq<Action>)
    requires c.Valid() && c.arith.Unbounded? && c.threads > 0 && n <= c.capacity - c.producerCount
    ensures Quiet(c, Run(c, actions), n)
    decreases n
  {
    if n == 0 {
      actions := [];
    } else {
      var a := Fill(c, n - 1);
      var b := Admit(c, a, n - 1, 0);
      Extend(c, b, Resume(0));
      Claimed(c, Run(c, b), n - 1, 0, Blank(c));
      actions := FinishWrite(c, b + [Resume(0)], n, n - 1, 0);
    }
  }

  lemma {:induction false} AdmitAll(c: Config, k: nat) returns (actions: seq<Action>)
    requires c.Valid() && c.arith.Unbounded? && k <= c.threads && c.threads > 0 && c.producerCount <= c.capacity
    ensures Bunched(c, Run(c, actions), c.capacity - c.producerCount, 0, k)
    decreases k
  {
    if k == 0 {
      actions := Fill(c, c.capacity - c.producerCount);
    } else {
      var a := AdmitAll(c, k - 1);
      actions := Admit(c, a, c.capacity - c.producerCount, k - 1);
    }
  }

  lemma {:induction false} ClaimAll(c: Config, k: nat, claimed: nat) returns (actions: seq<Action>)
    requires c.Valid() && c.arith.Unbounded? && claimed <= k <= c.threads && c.threads > 0
    ensures Bunched(c, Run(c, actions), c.capacity - c.producerCount, claimed, k)
    decreases claimed
  {
    if claimed == 0 {
      actions := AdmitAll(c, k);
    } else {
      var a := ClaimAll(c, k, claimed - 1);
      Extend(c, a, Resume(claimed - 1));
      Claimed(c, Run(c, a), c.capacity - c.producerCount + claimed - 1, claimed - 1, Blank(c));
      actions := a + [Resume(claimed - 1)];
    }
  }

  ghost predicate Enveloped(c: Config, s: State) {
    s.m.enqueueTicket <= FirstUndelivered(s.l.freed, 0) + c.capacity
  }

  /** The envelope holds in every run if and only if no more threads push than were declared. */
  lemma {:induction false} ProducerCountExact(c: Config)
    requires c.Valid() && c.arith.Unbounded?
    ensures c.threads <= c.producerCount <==> forall actions: seq<Action> :: Enveloped(c, Run(c, actions))
  {
    if c.threads <= c.producerCount {
      forall actions: seq<Action> ensures Enveloped(c, Run(c, actions)) {
        ReuseEnvelope(c, actions);
      }
    } else {
      var k := c.producerCount + 1;
      var actions := ClaimAll(c, k, k);
      assert Run(c, actions).l.freed == {};
      assert !Enveloped(c, Run(c, actions));
    }
  }
}
