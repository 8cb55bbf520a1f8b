/** The frontier lane can move backwards: a producer parked between the test and the store at the end of
    `advanceFrontier` overwrites a later value. A run of two producers, one consumer and four slots. */
module WorkQueueRegress {
  import opened Tickets
  import opened WorkQueue

  const TINY := Config(Unbounded, 4, 2, 1, 2, 1)
  const FRAME: Frame := [7]
  const FREE := Consumer(Nothing, false, Resting)

  /** `delivered` tickets were pushed and pulled and none is open; producer 0 stands at x, producer 1 at y. */
  function Standing(delivered: nat, frontier: int, x: Producer, y: Producer): Machine
    requires delivered <= 2
  {
    Machine(delivered, delivered, frontier, 0, 0, 0, false,
      [if delivered > 0 then 4 else 0, if delivered > 1 then 5 else 1, 2, 3],
      [if delivered > 0 then FRAME else [0], if delivered > 1 then FRAME else [0], [0], [0]],
      [x, y], [FREE])
  }

  /** A set of states of the tiny queue that every step stays inside. */
  ghost predicate Closed(reached: State -> bool) {
    forall s, a :: reached(s) ==> StaysInside(reached, s, a)
  }

  ghost predicate StaysInside(reached: State -> bool, s: State, a: Action) {
    s.m.Shaped(TINY) && |s.l.outcomes| == 1 && reached(Next(TINY, s, a))
  }

  lemma Take(reached: State -> bool, s: State, a: Action, next: Machine) returns (s': State)
    requires Closed(reached) && reached(s) && s.m.Shaped(TINY) && Step(TINY, s.m, a) == next
    ensures reached(s') && s'.m == next
  {
    assert StaysInside(reached, s, a);
    s' := Next(TINY, s, a);
  }

  lemma Slots()
    ensures Unbounded.Slot(0, 4) == 0 && Unbounded.Slot(1, 4) == 1 && Unbounded.Slot(2, 4) == 2
  {
  }

  /** Producer 1, past its frontier scan, claims a ticket for the next frame. */
  lemma Claim1(reached: State -> bool, s0: State, n: nat, x: Producer) returns (s: State)
    requires Closed(reached) && reached(s0) && n < 2 && s0.m == Standing(n, n, x, LoadingTicket(FRAME)) && Fits(x)
    ensures reached(s) && s.m == Standing(n, n, x, Writing(FRAME, n, 0)).(enqueueTicket := n + 1)
  {
    s := Take(reached, s0, Resume(1), Standing(n, n, x, LoadedTicket(FRAME, n)));
    s := Take(reached, s, Resume(1), Standing(n, n, x, Admitted(FRAME)));
    s := Take(reached, s, Resume(1), Standing(n, n, x, Writing(FRAME, n, 0)).(enqueueTicket := n + 1));
  }

  predicate Fits(x: Producer) {
    !x.Idle? ==> |x.frame| == 1 && (x.Writing? ==> x.done <= 1)
  }

  /** The frame of ticket n is published, and not claimed. */
  function Published(n: nat, x: Producer): Machine
    requires n < 2
  {
    var m := Standing(n, n, x, Idle);
    m.(enqueueTicket := n + 1, gen := m.gen[n := n + 1], payload := m.payload[n := FRAME])
  }

  lemma Publish(reached: State -> bool, s0: State, n: nat, x: Producer) returns (s: State)
    requires Closed(reached) && reached(s0) && n < 2 && Fits(x)
    requires s0.m == Standing(n, n, x, Writing(FRAME, n, 0)).(enqueueTicket := n + 1)
    ensures reached(s) && s.m == Published(n, x)
  {
    Slots();
    assert s0.m.payload[n][0 := 7] == FRAME;
    var written := s0.m.(producers := [x, Writing(FRAME, n, 1)], payload := s0.m.payload[n := FRAME]);
    s := Take(reached, s0, Resume(1), written);
    s := Take(reached, s, Resume(1), Published(n, x));
  }

  lemma ClaimNext(reached: State -> bool, s0: State, n: nat, x: Producer) returns (s: State)
    requires Closed(reached) && reached(s0) && n < 2 && Fits(x) && s0.m == Published(n, x)
    ensures reached(s)
    ensures s.m == Published(n, x).(dequeueTicket := n + 1, consumers := [Consumer(Claim(n), false, AtGate)])
  {
    var m := Published(n, x);
    s := Take(reached, s0, Pull(0), m.(consumers := [Consumer(Nothing, false, LoadedHead(n))]));
    s := Take(reached, s, Advance(0), m.(consumers := [Consumer(Nothing, false, Claiming)]));
    s := Take(reached, s, Advance(0), m.(dequeueTicket := n + 1, consumers := [Consumer(Claim(n), false, AtGate)]));
  }

  lemma Deliver(reached: State -> bool, s0: State, n: nat, x: Producer) returns (s: State)
    requires Closed(reached) && reached(s0) && n < 2 && Fits(x)
    requires s0.m == Published(n, x).(dequeueTicket := n + 1, consumers := [Consumer(Claim(n), false, AtGate)])
    ensures reached(s) && s.m == Standing(n + 1, n, x, Idle)
  {
    Slots();
    var m := s0.m;
    assert [] + [7] == FRAME;
    s := Take(reached, s0, Advance(0), m.(consumers := [Consumer(Claim(n), false, Reading([]))]));
    s := Take(reached, s, Advance(0), m.(consumers := [Consumer(Claim(n), false, Reading(FRAME))]));
    assert m.gen[n := n + 4] == Standing(n + 1, n, x, Idle).gen;
    assert m.payload == Standing(n + 1, n, x, Idle).payload;
    s := Take(reached, s, Advance(0), Standing(n + 1, n, x, Idle));
  }

  /** Producer p opens a push while the lane says n and ticket n, but not n + 1, has been delivered since. */
  lemma Scan(reached: State -> bool, s0: State, n: nat, p: nat) returns (s: State)
    requires Closed(reached) && reached(s0) && n < 2 && p < 2 && |s0.m.producers| == 2 && s0.m.producers[p].Idle?
    requires Fits(s0.m.producers[0]) && Fits(s0.m.producers[1])
    requires s0.m == Standing(n + 1, n, s0.m.producers[0], s0.m.producers[1])
    ensures reached(s) && s.m == s0.m.(producers := s0.m.producers[p := StoringFrontier(FRAME, n + 1)])
  {
    Slots();
    var m := s0.m;
    s := Take(reached, s0, Push(p, FRAME), m.(producers := m.producers[p := Scanning(FRAME, n, n, 0)]));
    s := Take(reached, s, Resume(p), m.(producers := m.producers[p := Scanning(FRAME, n, n + 1, 1)]));
    s := Take(reached, s, Resume(p), m.(producers := m.producers[p := Rechecking(FRAME, n + 1)]));
    s := Take(reached, s, Resume(p), m.(producers := m.producers[p := StoringFrontier(FRAME, n + 1)]));
  }

  /** Producer 1's first push, from the start. */
  lemma PushFirst(reached: State -> bool) returns (s: State)
    requires Closed(reached) && reached(Run(TINY, []))
    ensures reached(s) && s.m == Standing(0, 0, Idle, LoadingTicket(FRAME))
  {
    Slots();
    s := Run(TINY, []);
    var blank := seq(1, _ => 0);
    assert blank == [0] && s.m.payload == [blank, blank, blank, blank];
    assert s.m.gen == [0, 1, 2, 3];
    assert s.m.producers == [Idle, Idle] && s.m.consumers == [FREE];
    assert s.m == Standing(0, 0, Idle, Idle);
    s := Take(reached, s, Push(1, FRAME), Standing(0, 0, Idle, Scanning(FRAME, 0, 0, 0)));
    s := Take(reached, s, Resume(1), Standing(0, 0, Idle, LoadingTicket(FRAME)));
  }

  /** One frame from its claim by producer 1 to its delivery. */
  lemma PassOne(reached: State -> bool, s0: State, n: nat, x: Producer) returns (s: State)
    requires Closed(reached) && reached(s0) && n < 2 && Fits(x) && s0.m == Standing(n, n, x, LoadingTicket(FRAME))
    ensures reached(s) && s.m == Standing(n + 1, n, x, Idle)
  {
    s := Claim1(reached, s0, n, x);
    s := Publish(reached, s, n, x);
    s := ClaimNext(reached, s, n, x);
    s := Deliver(reached, s, n, x);
  }

  /** Producer 1 scans and stores what it has found. */
  lemma ScanAndStore(reached: State -> bool, s0: State, n: nat, x: Producer) returns (s: State)
    requires Closed(reached) && reached(s0) && n < 2 && Fits(x) && s0.m == Standing(n + 1, n, x, Idle)
    ensures reached(s) && s.m == Standing(n + 1, n + 1, x, LoadingTicket(FRAME))
  {
    s := Scan(reached, s0, n, 1);
    s := Take(reached, s, Resume(1), Standing(n + 1, n + 1, x, LoadingTicket(FRAME)));
  }

  /** Producer 0 is about to store 1 in a lane that says 2. */
  lemma RegressState(reached: State -> bool) returns (s: State)
    requires Closed(reached) && reached(Run(TINY, []))
    ensures reached(s) && s.m == Standing(2, 2, StoringFrontier(FRAME, 1), LoadingTicket(FRAME))
  {
    s := PushFirst(reached);
    s := PassOne(reached, s, 0, Idle);
    s := Scan(reached, s, 0, 0);
    s := ScanAndStore(reached, s, 0, StoringFrontier(FRAME, 1));
    s := PassOne(reached, s, 1, StoringFrontier(FRAME, 1));
    s := ScanAndStore(reached, s, 1, StoringFrontier(FRAME, 1));
  }

  ghost predicate Reachable(s: State) {
    exists actions :: Run(TINY, actions) == s
  }

  lemma ReachableIsClosed()
    ensures Closed(Reachable) && Reachable(Run(TINY, []))
  {
    forall s, a | Reachable(s) ensures StaysInside(Reachable, s, a) {
      var actions :| Run(TINY, actions) == s;
      assert (actions + [a])[..|actions|] == actions;
      assert Run(TINY, actions + [a]) == Next(TINY, s, a);
    }
  }

  /** After some run, a producer's next step lowers the frontier lane. */
  lemma FrontierCanRegress()
    ensures exists actions, p :: Step(TINY, Run(TINY, actions).m, Resume(p)).frontier < Run(TINY, actions).m.frontier
  {
    ReachableIsClosed();
    var s := RegressState(Reachable);
    var actions :| Run(TINY, actions) == s;
    assert Step(TINY, Run(TINY, actions).m, Resume(0)).frontier == 1;
  }
}
