/** Where MpmcWorkQueue's promise ends: `pull` takes a negative claim for "empty", so the claim of
    ticket 2^31, whose lane value is -2^31, is spent without being held and its frame is never
    delivered. Shown on a run of one producer and one consumer with two slots and one-word frames. */
module WorkQueueOrphan {
  import opened Int32
  import opened Tickets
  import opened WorkQueue

  /** Exactly which claims `pull` honours: those whose ticket, modulo 2^32, is below 2^31. */
  lemma ClaimHonoured(c: Config, m: Machine, k: nat, ticket: int)
    requires c.arith.Wrapped? && m.Shaped(c) && k < c.consumers
    requires m.consumers[k].at.Claiming? && m.dequeueTicket == ToInt32(ticket)
    ensures var m' := Step(c, m, Advance(k));
      && m'.dequeueTicket == ToInt32(ticket + 1)
      && (m'.consumers[k].held == Claim(ToInt32(ticket)) && m'.consumers[k].at.AtGate?
          <==> ticket % TWO_32 < TWO_31)
      && (ticket % TWO_32 >= TWO_31 ==> m'.consumers[k] == m.consumers[k].(at := Resting))
  {
    ToInt32Add(ticket, 1);
  }

  const TINY := Config(Wrapped, 2, 1, 1, 1, 1)
  const FRAME: Frame := [7]

  lemma Numbers(n: nat)
    ensures Wrapped.Slot(ToInt32(n), 2) == n % 2
    ensures ToInt32(ToInt32(n) + 1) == ToInt32(n + 1) && ToInt32(ToInt32(n) + 2) == ToInt32(n + 2)
    ensures SignedDiff(ToInt32(n), ToInt32(n)) == 0
    ensures SignedDiff(ToInt32(n + 1), ToInt32(n)) == 1
    ensures SignedDiff(ToInt32(n), ToInt32(n + 1)) == -1
    ensures SignedDiff(ToInt32(n), ToInt32(n + 2)) == -2
  {
    SlotExact(n, 1);
    assert Pow2(1) == 2;
    ToInt32Add(n, 1);
    ToInt32Add(n, 2);
    SignedDiffExact(n, n);
    SignedDiffExact(n + 1, n);
    SignedDiffExact(n, n + 1);
    SignedDiffExact(n, n + 2);
  }

  /** The sign of a claim decides whether `pull` keeps it. */
  lemma Sign(n: nat)
    requires n <= TWO_31
    ensures if n < TWO_31 then ToInt32(n) == n else ToInt32(n) < 0
  {
  }

  lemma SlotOf(n: nat)
    requires n < TWO_31
    ensures Wrapped.Slot(n, 2) == n % 2
  {
    Sign(n);
    Numbers(n);
  }

  /** A set of states of the tiny queue that every step stays inside. */
  ghost predicate Closed(reached: State -> bool) {
    forall s, a :: reached(s) ==> StaysInside(reached, s, a)
  }

  ghost predicate StaysInside(reached: State -> bool, s: State, a: Action) {
    s.m.Shaped(TINY) && |s.l.outcomes| == 1 && reached(Next(TINY, s, a))
  }

  lemma Take(reached: State -> bool, s: State, a: Action) returns (s': State)
    requires Closed(reached) && reached(s)
    ensures s.m.Shaped(TINY) && |s.l.outcomes| == 1 && s' == Next(TINY, s, a) && reached(s')
  {
    assert StaysInside(reached, s, a);
    s' := Next(TINY, s, a);
  }

  /** The one producer stands at x, the one consumer at y. */
  ghost predicate At(reached: State -> bool, s: State, x: Producer, y: Consumer) {
    reached(s) && Closed(reached) && !s.m.closed && s.m.producers == [x] && s.m.consumers == [y]
      && |s.m.gen| == |s.m.payload| == 2 && (forall i :: 0 <= i < 2 ==> |s.m.payload[i]| == 1)
  }

  const FREE := Consumer(Nothing, false, Resting)

  lemma BeginPush(reached: State -> bool, s: State) returns (s': State)
    requires At(reached, s, Idle, FREE)
    ensures At(reached, s', Scanning(FRAME, s.m.frontier, s.m.frontier, 0), FREE)
    ensures s'.m == s.m.(producers := s'.m.producers) && s'.l == s.l.(attempts := s.l.attempts + 1)
  {
    s' := Take(reached, s, Push(0, FRAME));
  }

  /** The scan passes ticket n, whose slot holds Free(n + 2). */
  lemma ScanPast(reached: State -> bool, s: State, n: nat) returns (s': State)
    requires At(reached, s, Scanning(FRAME, ToInt32(n), ToInt32(n), 0), FREE) && s.m.gen[n % 2] == ToInt32(n + 2)
    ensures At(reached, s', Scanning(FRAME, ToInt32(n), ToInt32(n + 1), 1), FREE)
    ensures s'.m == s.m.(producers := s'.m.producers) && s'.l == s.l
  {
    Numbers(n);
    SignedDiffExact(n + 2, n + 2);
    s' := Take(reached, s, Resume(0));
  }

  /** The scan stops at ticket n, whose slot holds Free(n). */
  lemma ScanStop(reached: State -> bool, s: State, n: nat, start: int, k: nat) returns (s': State)
    requires At(reached, s, Scanning(FRAME, start, ToInt32(n), k), FREE) && k < 2 && s.m.gen[n % 2] == ToInt32(n)
    ensures At(reached, s', AfterScan(FRAME, start, ToInt32(n)), FREE)
    ensures s'.m == s.m.(producers := s'.m.producers) && s'.l == s.l
  {
    Numbers(n);
    s' := Take(reached, s, Resume(0));
  }

  lemma Recheck(reached: State -> bool, s: State, n: nat) returns (s': State)
    requires At(reached, s, Rechecking(FRAME, ToInt32(n + 1)), FREE) && s.m.frontier == ToInt32(n)
    ensures At(reached, s', StoringFrontier(FRAME, ToInt32(n + 1)), FREE)
    ensures s'.m == s.m.(producers := s'.m.producers) && s'.l == s.l
  {
    Numbers(n);
    s' := Take(reached, s, Resume(0));
  }

  lemma StoreFrontier(reached: State -> bool, s: State, f: int) returns (s': State)
    requires At(reached, s, StoringFrontier(FRAME, f), FREE)
    ensures At(reached, s', LoadingTicket(FRAME), FREE)
    ensures s'.m == s.m.(producers := s'.m.producers, frontier := f) && s'.l == s.l
  {
    s' := Take(reached, s, Resume(0));
  }

  lemma LoadTicket(reached: State -> bool, s: State) returns (s': State)
    requires At(reached, s, LoadingTicket(FRAME), FREE)
    ensures At(reached, s', LoadedTicket(FRAME, s.m.enqueueTicket), FREE)
    ensures s'.m == s.m.(producers := s'.m.producers) && s'.l == s.l
  {
    s' := Take(reached, s, Resume(0));
  }

  lemma Admit(reached: State -> bool, s: State, n: nat) returns (s': State)
    requires At(reached, s, LoadedTicket(FRAME, ToInt32(n)), FREE) && s.m.frontier == ToInt32(n)
    ensures At(reached, s', Admitted(FRAME), FREE)
    ensures s'.m == s.m.(producers := s'.m.producers) && s'.l == s.l
  {
    Numbers(n);
    s' := Take(reached, s, Resume(0));
  }

  lemma ClaimPush(reached: State -> bool, s: State, n: nat) returns (s': State)
    requires At(reached, s, Admitted(FRAME), FREE) && s.m.enqueueTicket == ToInt32(n)
    ensures At(reached, s', Writing(FRAME, ToInt32(n), 0), FREE)
    ensures s'.m == s.m.(producers := s'.m.producers, enqueueTicket := ToInt32(n + 1))
    ensures s'.l.freed == s.l.freed && |s'.l.frames| == |s.l.frames| + 1
  {
    Numbers(n);
    s' := Take(reached, s, Resume(0));
  }

  lemma Publish(reached: State -> bool, s: State, n: nat) returns (s': State)
    requires At(reached, s, Writing(FRAME, ToInt32(n), 0), FREE)
    ensures At(reached, s', Idle, FREE)
    ensures s'.m == s.m.(producers := s'.m.producers, payload := s'.m.payload, gen := s.m.gen[n % 2 := ToInt32(n + 1)])
    ensures s'.l == s.l
  {
    s' := WriteFrame(reached, s, n);
    s' := Stamp(reached, s', n);
  }

  lemma WriteFrame(reached: State -> bool, s: State, n: nat) returns (s': State)
    requires At(reached, s, Writing(FRAME, ToInt32(n), 0), FREE)
    ensures At(reached, s', Writing(FRAME, ToInt32(n), 1), FREE)
    ensures s'.m == s.m.(producers := s'.m.producers, payload := s'.m.payload) && s'.l == s.l
  {
    Numbers(n);
    s' := Take(reached, s, Resume(0));
  }

  lemma Stamp(reached: State -> bool, s: State, n: nat) returns (s': State)
    requires At(reached, s, Writing(FRAME, ToInt32(n), 1), FREE)
    ensures At(reached, s', Idle, FREE)
    ensures s'.m == s.m.(producers := s'.m.producers, gen := s.m.gen[n % 2 := ToInt32(n + 1)]) && s'.l == s.l
  {
    Numbers(n);
    s' := Take(reached, s, Resume(0));
  }

  lemma BeginPull(reached: State -> bool, s: State, n: nat) returns (s': State)
    requires At(reached, s, Idle, FREE) && s.m.dequeueTicket == ToInt32(n)
    ensures At(reached, s', Idle, Consumer(Nothing, false, LoadedHead(ToInt32(n))))
    ensures s'.m == s.m.(consumers := s'.m.consumers) && s'.l == s.l
  {
    s' := Take(reached, s, Pull(0));
  }

  lemma SeeTicket(reached: State -> bool, s: State, n: nat) returns (s': State)
    requires At(reached, s, Idle, Consumer(Nothing, false, LoadedHead(ToInt32(n))))
    requires s.m.enqueueTicket == ToInt32(n + 1)
    ensures At(reached, s', Idle, Consumer(Nothing, false, Claiming))
    ensures s'.m == s.m.(consumers := s'.m.consumers) && s'.l == s.l
  {
    Numbers(n);
    s' := Take(reached, s, Advance(0));
  }

  lemma ClaimPull(reached: State -> bool, s: State, n: nat) returns (s': State)
    requires At(reached, s, Idle, Consumer(Nothing, false, Claiming)) && s.m.dequeueTicket == ToInt32(n) && n <= TWO_31
    ensures At(reached, s', Idle, if n < TWO_31 then Consumer(Claim(n), false, AtGate) else FREE)
    ensures s'.m == s.m.(consumers := s'.m.consumers, dequeueTicket := ToInt32(n + 1))
    ensures s'.l.freed == s.l.freed && s'.l.frames == s.l.frames
  {
    ToInt32Add(n, 1);
    Sign(n);
    s' := Take(reached, s, Advance(0));
  }

  lemma PassGate(reached: State -> bool, s: State, n: nat) returns (s': State)
    requires At(reached, s, Idle, Consumer(Claim(n), false, AtGate)) && n < TWO_31 && s.m.gen[n % 2] == ToInt32(n + 1)
    ensures At(reached, s', Idle, Consumer(Claim(n), false, Reading([])))
    ensures s'.m == s.m.(consumers := s'.m.consumers) && s'.l == s.l
  {
    SlotOf(n);
    SignedDiffExact(n + 1, n + 1);
    s' := Take(reached, s, Advance(0));
  }

  lemma ReadFrame(reached: State -> bool, s: State, n: nat) returns (s': State)
    requires At(reached, s, Idle, Consumer(Claim(n), false, Reading([]))) && n < TWO_31
    ensures At(reached, s', Idle, Consumer(Claim(n), false, Reading([s.m.payload[n % 2][0]])))
    ensures s'.m == s.m.(consumers := s'.m.consumers) && s'.l == s.l
  {
    SlotOf(n);
    assert [] + [s.m.payload[n % 2][0]] == [s.m.payload[n % 2][0]];
    s' := Take(reached, s, Advance(0));
  }

  lemma FreeSlot(reached: State -> bool, s: State, n: nat, word: Word) returns (s': State)
    requires At(reached, s, Idle, Consumer(Claim(n), false, Reading([word]))) && n < TWO_31
    ensures At(reached, s', Idle, FREE)
    ensures s'.m == s.m.(consumers := s'.m.consumers, gen := s.m.gen[n % 2 := ToInt32(n + 2)])
    ensures s'.l.freed == s.l.freed + {n} && s'.l.frames == s.l.frames
  {
    SlotOf(n);
    s' := Take(reached, s, Advance(0));
  }

  /** n frames were pushed and pulled one at a time, each delivered. */
  ghost predicate Cycled(reached: State -> bool, s: State, n: nat) {
    && At(reached, s, Idle, FREE)
    && s.m.enqueueTicket == s.m.dequeueTicket == ToInt32(n)
    && s.m.frontier == ToInt32(if n == 0 then 0 else n - 1)
    && s.m.gen[n % 2] == ToInt32(n) && s.m.gen[(n + 1) % 2] == ToInt32(n + 1)
    && s.l.freed == Upto(n) && |s.l.frames| == n
  }

  function Upto(n: nat): (ts: set<int>)
    ensures forall t :: t in ts <==> 0 <= t < n
  {
    if n == 0 then {} else Upto(n - 1) + {n - 1}
  }

  lemma ScanFirst(reached: State -> bool, s: State) returns (s': State)
    requires Cycled(reached, s, 0)
    ensures At(reached, s', LoadingTicket(FRAME), FREE)
    ensures s'.m == s.m.(producers := s'.m.producers)
    ensures s'.l.freed == s.l.freed && s'.l.frames == s.l.frames
  {
    s' := BeginPush(reached, s);
    s' := ScanStop(reached, s', 0, ToInt32(0), 0);
  }

  lemma ScanLater(reached: State -> bool, s: State, n: nat) returns (s': State)
    requires n > 0 && Cycled(reached, s, n)
    ensures At(reached, s', LoadingTicket(FRAME), FREE)
    ensures s'.m == s.m.(producers := s'.m.producers, frontier := ToInt32(n))
    ensures s'.l.freed == s.l.freed && s'.l.frames == s.l.frames
  {
    s' := BeginPush(reached, s);
    s' := ScanPast(reached, s', n - 1);
    s' := ScanStop(reached, s', n, ToInt32(n - 1), 1);
    Differ(n);
    s' := Recheck(reached, s', n - 1);
    s' := StoreFrontier(reached, s', ToInt32(n));
  }

  lemma Differ(n: nat)
    requires n > 0
    ensures ToInt32(n) != ToInt32(n - 1)
  {
    Numbers(n - 1);
  }

  /** Push frame n and pull up to its claim. */
  lemma PushAndSee(reached: State -> bool, s: State, n: nat) returns (s': State)
    requires Cycled(reached, s, n)
    ensures At(reached, s', Idle, Consumer(Nothing, false, Claiming))
    ensures s'.m.dequeueTicket == ToInt32(n) && s'.m.enqueueTicket == ToInt32(n + 1)
    ensures s'.m.frontier == ToInt32(n) && s'.m.gen == s.m.gen[n % 2 := ToInt32(n + 1)]
    ensures s'.l.freed == s.l.freed && |s'.l.frames| == n + 1
  {
    if n == 0 {
      s' := ScanFirst(reached, s);
    } else {
      s' := ScanLater(reached, s, n);
    }
    s' := LoadTicket(reached, s');
    s' := Admit(reached, s', n);
    s' := ClaimPush(reached, s', n);
    s' := Publish(reached, s', n);
    s' := BeginPull(reached, s', n);
    s' := SeeTicket(reached, s', n);
  }

  lemma CycleOne(reached: State -> bool, before: State, n: nat) returns (s: State)
    requires n < TWO_31 && Cycled(reached, before, n)
    ensures Cycled(reached, s, n + 1)
  {
    s := PushAndSee(reached, before, n);
    s := ClaimPull(reached, s, n);
    s := PassGate(reached, s, n);
    s := ReadFrame(reached, s, n);
    s := FreeSlot(reached, s, n, s.m.payload[n % 2][0]);
  }

  lemma {:induction false} CycleMany(reached: State -> bool, n: nat) returns (s: State)
    requires n <= TWO_31 && Closed(reached) && reached(Run(TINY, []))
    ensures Cycled(reached, s, n)
    decreases n
  {
    if n == 0 {
      s := Run(TINY, []);
      assert s.m.gen == [0, 1];
    } else {
      s := CycleMany(reached, n - 1);
      s := CycleOne(reached, s, n - 1);
    }
  }

  /** Everything is at rest, 2^31 + 1 frames were pushed and claimed, and all but the last delivered. */
  ghost predicate LastIsOrphaned(s: State) {
    && s.m.producers == [Idle] && s.m.consumers == [FREE]
    && |s.l.frames| == TWO_31 + 1 && s.l.freed == Upto(TWO_31)
    && s.m.enqueueTicket == s.m.dequeueTicket == ToInt32(TWO_31 + 1)
  }

  ghost predicate Reachable(s: State) {
    exists actions :: Run(TINY, actions) == s
  }

  lemma ReachableIsClosed()
    ensures Closed(Reachable) && Reachable(Run(TINY, []))
  {
    forall s, a | Reachable(s) ensures StaysInside(Reachable, s, a) {
      var actions :| Run(TINY, actions) == s;
      assert (actions + [a])[..|actions|] == actions;
      assert Run(TINY, actions + [a]) == Next(TINY, s, a);
    }
  }

  lemma OrphanState(reached: State -> bool) returns (s: State)
    requires Closed(reached) && reached(Run(TINY, []))
    ensures reached(s) && LastIsOrphaned(s)
  {
    s := CycleMany(reached, TWO_31);
    s := PushAndSee(reached, s, TWO_31);
    s := ClaimPull(reached, s, TWO_31);
  }

  /** The failing run: the consumer's claim of ticket 2^31 is spent, and nobody holds or receives it. */
  lemma Ticket2To31IsOrphaned()
    ensures exists actions :: LastIsOrphaned(Run(TINY, actions))
  {
    ReachableIsClosed();
    var s := OrphanState(Reachable);
    var actions :| Run(TINY, actions) == s;
  }
}
