/** The Int32 protocol that MpmcWorkQueue executes refines the unbounded one while tickets stay below
    2^31, because `pull` takes a negative ticket for "empty". */
module WorkQueueWrap {
  import opened Int32
  import opened Tickets
  import opened WorkQueue
  import opened WorkQueueInvariant
  import opened WorkQueueSafety

  function WrapProducer(p: Producer): Producer {
    match p
    case Scanning(frame, start, f, n) => Scanning(frame, ToInt32(start), ToInt32(f), n)
    case Rechecking(frame, f) => Rechecking(frame, ToInt32(f))
    case StoringFrontier(frame, f) => StoringFrontier(frame, ToInt32(f))
    case LoadedTicket(frame, w) => LoadedTicket(frame, ToInt32(w))
    case Writing(frame, t, k) => Writing(frame, ToInt32(t), k)
    case _ => p
  }

  function WrapProducers(ps: seq<Producer>): (qs: seq<Producer>)
    ensures |qs| == |ps| && forall i :: 0 <= i < |ps| ==> qs[i] == WrapProducer(ps[i])
  {
    seq(|ps|, i requires 0 <= i < |ps| => WrapProducer(ps[i]))
  }

  function WrapConsumer(x: Consumer): Consumer {
    Consumer(
      if x.held.Claim? then Claim(ToInt32(x.held.ticket)) else Nothing,
      x.drained,
      match x.at
      case LoadedHead(r) => LoadedHead(ToInt32(r))
      case DrainTicket(w) => DrainTicket(ToInt32(w))
      case at => at)
  }

  function WrapConsumers(ks: seq<Consumer>): (qs: seq<Consumer>)
    ensures |qs| == |ks| && forall i :: 0 <= i < |ks| ==> qs[i] == WrapConsumer(ks[i])
  {
    seq(|ks|, i requires 0 <= i < |ks| => WrapConsumer(ks[i]))
  }

  /** The Int32 lanes that stand for an unbounded machine. */
  function Wrap(m: Machine): Machine {
    Machine(ToInt32(m.enqueueTicket), ToInt32(m.dequeueTicket), ToInt32(m.frontier),
      ToInt32(m.droppedFrames), ToInt32(m.strandedClaims), ToInt32(m.tornGuarded), m.closed,
      WrapAll(m.gen), m.payload, WrapProducers(m.producers), WrapConsumers(m.consumers))
  }

  /** Fewer than 2^31 tickets handed out to producers, and the next claim is below 2^31. */
  ghost predicate Small(m: Machine) {
    && m.enqueueTicket < TWO_31 && m.dequeueTicket <= TWO_31
    && (forall k :: 0 <= k < |m.consumers| && m.consumers[k].at.Claiming? ==> m.dequeueTicket < TWO_31)
  }

  /** A constructor-accepted queue: a power-of-two capacity up to 2^29. */
  ghost predicate Accepted(c: Config, k: nat) {
    c.Valid() && c.arith.Unbounded? && 1 <= k <= 29 && c.capacity == Pow2(k) && c.capacity <= 0x2000_0000
  }

  function Wrapped32(c: Config): Config { c.(arith := Wrapped) }

  lemma Same(c: Config, s: State, n: nat)
    requires Accepted(c, n) && Inv(c, s)
    ensures Wrap(s.m).Shaped(Wrapped32(c))
  {
    forall p | 0 <= p < c.threads
      ensures !Wrap(s.m).producers[p].Idle? ==> |Wrap(s.m).producers[p].frame| == c.words
      ensures Wrap(s.m).producers[p].Writing? ==> Wrap(s.m).producers[p].done <= c.words
    {
      assert Wrap(s.m).producers[p] == WrapProducer(s.m.producers[p]);
    }
    forall k | 0 <= k < c.consumers ensures ConsumerShaped(Wrapped32(c), Wrap(s.m).consumers[k]) {
      assert ConsumerShaped(c, s.m.consumers[k]);
    }
  }

  lemma ProducerPut(ps: seq<Producer>, p: nat, next: Producer)
    requires p < |ps|
    ensures WrapProducers(ps[p := next]) == WrapProducers(ps)[p := WrapProducer(next)]
  {
  }

  lemma ConsumerPut(ks: seq<Consumer>, k: nat, next: Consumer)
    requires k < |ks|
    ensures WrapConsumers(ks[k := next]) == WrapConsumers(ks)[k := WrapConsumer(next)]
  {
  }

  lemma SameSlot(c: Config, n: nat, t: int)
    requires Accepted(c, n)
    ensures Wrapped.Slot(ToInt32(t), c.capacity) == c.arith.Slot(t, c.capacity)
  {
    SlotExact(t, n);
  }

  /** Stamps lie within a lap of the last claim, and are never negative. */
  lemma {:induction false} StampRange(c: Config, s: State, t: int)
    requires Inv(c, s) && t >= 0
    ensures 0 <= s.m.gen[c.arith.Slot(t, c.capacity)] < s.m.enqueueTicket + c.capacity
    ensures s.m.enqueueTicket - c.capacity <= s.m.gen[c.arith.Slot(t, c.capacity)]
  {
    var w := s.m.enqueueTicket;
    var live: int;
    if t < w - c.capacity {
      live := LiveTicket(c, w, t);
    } else if t < w {
      live := t;
    } else {
      live := LiveTicket2(c, w, t);
    }
    assert SlotOk(c, s, live);
  }

  /** Whether the scan passes its current ticket. */
  predicate ScanPasses(c: Config, m: Machine, p: nat)
    requires m.Shaped(c) && p < c.threads && m.producers[p].Scanning?
  {
    var x := m.producers[p];
    x.scanned < c.capacity
    && c.arith.Diff(m.gen[c.arith.Slot(x.f, c.capacity)], c.arith.Lane(x.f + c.capacity)) >= 0
  }

  /** The scan compares a stamp with Free(f + capacity); both readings agree on the comparison. */
  lemma {:induction false} ScanAgrees(c: Config, n: nat, s: State, p: nat)
    requires Accepted(c, n) && Inv(c, s) && Small(s.m) && p < c.threads && s.m.producers[p].Scanning?
    requires Wrap(s.m).Shaped(Wrapped32(c))
    ensures ScanPasses(Wrapped32(c), Wrap(s.m), p) == ScanPasses(c, s.m, p)
    ensures 0 <= s.m.producers[p].start <= s.m.producers[p].f < TWO_31
  {
    ScanRange(c, s, p);
    ScanCompares(c, n, s.m, p);
  }

  lemma {:induction false} ScanRange(c: Config, s: State, p: nat)
    requires Inv(c, s) && s.m.enqueueTicket < TWO_31 && p < c.threads && s.m.producers[p].Scanning?
    requires c.capacity <= 0x4000_0000
    ensures var f := s.m.producers[p].f;
      && 0 <= s.m.producers[p].start <= f < TWO_31
      && -TWO_31 <= s.m.gen[c.arith.Slot(f, c.capacity)] - (f + c.capacity) < TWO_31
  {
    assert ProducerOk(c, s, p);
    assert s.m.enqueueTicket !in s.l.freed;
    StampRange(c, s, s.m.producers[p].f);
  }

  lemma {:induction false} ScanCompares(c: Config, n: nat, m: Machine, p: nat)
    requires Accepted(c, n) && m.Shaped(c) && Wrap(m).Shaped(Wrapped32(c)) && p < c.threads && m.producers[p].Scanning?
    requires var f := m.producers[p].f; var stamp := m.gen[c.arith.Slot(f, c.capacity)];
      -TWO_31 <= stamp - (f + c.capacity) < TWO_31
    ensures ScanPasses(Wrapped32(c), Wrap(m), p) == ScanPasses(c, m, p)
  {
    var f := m.producers[p].f;
    var slot := c.arith.Slot(f, c.capacity);
    FreeComparison(m.gen[slot], f, c.capacity);
    SameSlot(c, n, f);
    assert Wrap(m).producers[p] == WrapProducer(m.producers[p]);
    assert Wrap(m).gen[slot] == ToInt32(m.gen[slot]);
  }

  lemma FreeComparison(stamp: int, f: int, capacity: int)
    requires -TWO_31 <= stamp - (f + capacity) < TWO_31
    ensures SignedDiff(ToInt32(stamp), ToInt32(ToInt32(f) + capacity)) == stamp - (f + capacity)
  {
    ToInt32Add(f, capacity);
    SignedDiffExact(stamp, f + capacity);
  }

  lemma ScanStepIs(c: Config, m: Machine, p: nat)
    requires m.Shaped(c) && p < c.threads && m.producers[p].Scanning?
    ensures var x := m.producers[p];
      ProducerStep(c, m, p) == m.(producers := m.producers[p :=
        if ScanPasses(c, m, p) then Scanning(x.frame, x.start, c.arith.Lane(x.f + 1), x.scanned + 1)
        else AfterScan(x.frame, x.start, x.f)])
  {
  }

  lemma ScanWraps(c: Config, n: nat, m: Machine, p: nat)
    requires Accepted(c, n) && m.Shaped(c) && Wrap(m).Shaped(Wrapped32(c)) && p < c.threads
    requires m.producers[p].Scanning? && ScanPasses(Wrapped32(c), Wrap(m), p) == ScanPasses(c, m, p)
    requires 0 <= m.producers[p].start <= m.producers[p].f < TWO_31
    ensures ProducerStep(Wrapped32(c), Wrap(m), p) == Wrap(ProducerStep(c, m, p))
  {
    ScanStepIs(c, m, p);
    ScanStepIs(Wrapped32(c), Wrap(m), p);
    ProducerPut(m.producers, p, ProducerStep(c, m, p).producers[p]);
    var Scanning(_, start, f, _) := m.producers[p];
    ToInt32Add(f, 1);
    WrapInjective(f, start);
  }

  lemma WrapInjective(a: int, b: int)
    requires 0 <= a < TWO_31 && 0 <= b < TWO_31
    ensures ToInt32(a) == ToInt32(b) <==> a == b
  {
  }

  lemma {:induction false} ProducerWraps(c: Config, n: nat, s: State, p: nat)
    requires Accepted(c, n) && Inv(c, s) && Small(s.m) && p < c.threads
    ensures Wrap(s.m).Shaped(Wrapped32(c))
    ensures ProducerStep(Wrapped32(c), Wrap(s.m), p) == Wrap(ProducerStep(c, s.m, p))
  {
    Same(c, s, n);
    match s.m.producers[p]
    case Scanning(_, _, _, _) =>
      ScanAgrees(c, n, s, p);
      ScanWraps(c, n, s.m, p);
    case Rechecking(_, f) =>
      CompareWraps(c, s, p, f, s.m.frontier);
      CheckWraps(c, s.m, p, f);
    case LoadedTicket(_, w) =>
      CompareWraps(c, s, p, w, s.m.frontier);
      CheckWraps(c, s.m, p, w);
    case Writing(_, _, _) => WritingWraps(c, n, s.m, p);
    case _ => OtherWraps(c, s.m, p);
  }

  /** Two loads of a producer compare alike on the lanes: both lie in [0, 2^31). */
  lemma CompareWraps(c: Config, s: State, p: nat, a: int, b: int)
    requires Inv(c, s) && Small(s.m) && p < c.threads && b == s.m.frontier
    requires
      || (s.m.producers[p].Rechecking? && a == s.m.producers[p].f)
      || (s.m.producers[p].LoadedTicket? && a == s.m.producers[p].w)
    ensures SignedDiff(ToInt32(a), ToInt32(b)) == a - b
  {
    assert ProducerOk(c, s, p);
    assert s.m.enqueueTicket !in s.l.freed;
    SignedDiffExact(a, b);
  }

  lemma CheckWraps(c: Config, m: Machine, p: nat, a: int)
    requires m.Shaped(c) && c.arith.Unbounded? && Wrap(m).Shaped(Wrapped32(c)) && p < c.threads
    requires
      || (m.producers[p].Rechecking? && a == m.producers[p].f)
      || (m.producers[p].LoadedTicket? && a == m.producers[p].w)
    requires SignedDiff(ToInt32(a), ToInt32(m.frontier)) == a - m.frontier
    ensures ProducerStep(Wrapped32(c), Wrap(m), p) == Wrap(ProducerStep(c, m, p))
  {
    ProducerPut(m.producers, p, ProducerStep(c, m, p).producers[p]);
  }

  lemma OtherWraps(c: Config, m: Machine, p: nat)
    requires m.Shaped(c) && c.arith.Unbounded? && Wrap(m).Shaped(Wrapped32(c)) && p < c.threads
    requires var x := m.producers[p];
      x.Idle? || x.StoringFrontier? || x.LoadingTicket? || x.Dropping? || x.Admitted?
    ensures ProducerStep(Wrapped32(c), Wrap(m), p) == Wrap(ProducerStep(c, m, p))
  {
    assert Wrap(m).producers[p] == WrapProducer(m.producers[p]);
    ProducerPut(m.producers, p, ProducerStep(c, m, p).producers[p]);
    ToInt32Add(m.droppedFrames, 1);
    ToInt32Add(m.enqueueTicket, 1);
  }

  lemma {:induction false} WritingWraps(c: Config, n: nat, m: Machine, p: nat)
    requires Accepted(c, n) && m.Shaped(c) && Wrap(m).Shaped(Wrapped32(c))
    requires p < c.threads && m.producers[p].Writing?
    ensures ProducerStep(Wrapped32(c), Wrap(m), p) == Wrap(ProducerStep(c, m, p))
  {
    var Writing(_, t, j) := m.producers[p];
    SameSlot(c, n, t);
    ProducerPut(m.producers, p, ProducerStep(c, m, p).producers[p]);
    if j == c.words {
      ToInt32Add(t, 1);
      var slot := c.arith.Slot(t, c.capacity);
      assert WrapAll(m.gen[slot := t + 1]) == WrapAll(m.gen)[slot := ToInt32(t + 1)];
    }
  }

  /** The comparison a consumer's next step makes, if it makes one, reads the same on the lanes. */
  ghost predicate Agrees(c: Config, m: Machine, x: Consumer)
    requires m.Shaped(c) && ConsumerShaped(c, x)
  {
    match x.at
    case LoadedHead(r) => SignedDiff(ToInt32(m.enqueueTicket), ToInt32(r)) == m.enqueueTicket - r
    case Claiming => ToInt32(m.dequeueTicket) == m.dequeueTicket >= 0
    case AtGate =>
      var d := x.held.ticket;
      var stamp := m.gen[c.arith.Slot(d, c.capacity)];
      SignedDiff(ToInt32(stamp), ToInt32(ToInt32(d) + 1)) == stamp - (d + 1)
    case LoadingFinal =>
      SignedDiff(ToInt32(x.held.ticket), ToInt32(m.enqueueTicket)) == x.held.ticket - m.enqueueTicket
    case DrainTicket(w) => SignedDiff(ToInt32(w), ToInt32(m.dequeueTicket)) == w - m.dequeueTicket
    case CountingTorn => false
    case _ => true
  }

  lemma {:induction false} ConsumerNumbers(c: Config, n: nat, s: State, k: nat)
    requires Accepted(c, n) && Inv(c, s) && Small(s.m) && k < c.consumers
    ensures Agrees(c, s.m, s.m.consumers[k])
  {
    var x := s.m.consumers[k];
    assert ConsumerOk(c, s, k);
    match x.at
    case LoadedHead(r) => SignedDiffExact(s.m.enqueueTicket, r);
    case Claiming => ToInt32Unique(s.m.dequeueTicket, s.m.dequeueTicket);
    case AtGate => GateNumbers(c, n, s, k);
    case LoadingFinal => SignedDiffExact(x.held.ticket, s.m.enqueueTicket);
    case DrainTicket(w) => SignedDiffExact(w, s.m.dequeueTicket);
    case _ =>
  }

  lemma {:induction false} GateNumbers(c: Config, n: nat, s: State, k: nat)
    requires Accepted(c, n) && Inv(c, s) && Small(s.m) && k < c.consumers && s.m.consumers[k].at.AtGate?
    ensures Agrees(c, s.m, s.m.consumers[k])
  {
    assert ConsumerOk(c, s, k);
    var d := s.m.consumers[k].held.ticket;
    StampRange(c, s, d);
    GateExact(c, s, k);
    FreeComparison(s.m.gen[c.arith.Slot(d, c.capacity)], d, 1);
  }

  lemma {:induction false} ConsumerWraps(c: Config, n: nat, s: State, k: nat)
    requires Accepted(c, n) && Inv(c, s) && Small(s.m) && k < c.consumers
    ensures Wrap(s.m).Shaped(Wrapped32(c))
    ensures ConsumerStep(Wrapped32(c), Wrap(s.m), k) == Wrap(ConsumerStep(c, s.m, k))
  {
    Same(c, s, n);
    ConsumerNumbers(c, n, s, k);
    match s.m.consumers[k].at
    case AtGate => GateWraps(c, n, s.m, k);
    case Reading(_) => ReadingWraps(c, n, s.m, k);
    case Claiming => CountWraps(c, s.m, k);
    case CountingStrand => CountWraps(c, s.m, k);
    case _ => LoadWraps(c, s.m, k);
  }

  lemma LoadWraps(c: Config, m: Machine, k: nat)
    requires m.Shaped(c) && c.arith.Unbounded? && Wrap(m).Shaped(Wrapped32(c)) && k < c.consumers
    requires Agrees(c, m, m.consumers[k]) && !m.consumers[k].at.AtGate? && !m.consumers[k].at.Reading?
    requires !m.consumers[k].at.Claiming? && !m.consumers[k].at.CountingStrand?
    ensures ConsumerStep(Wrapped32(c), Wrap(m), k) == Wrap(ConsumerStep(c, m, k))
  {
    assert Wrap(m).consumers[k] == WrapConsumer(m.consumers[k]);
    ConsumerPut(m.consumers, k, ConsumerStep(c, m, k).consumers[k]);
  }

  lemma CountWraps(c: Config, m: Machine, k: nat)
    requires m.Shaped(c) && c.arith.Unbounded? && Wrap(m).Shaped(Wrapped32(c)) && k < c.consumers
    requires Agrees(c, m, m.consumers[k]) && (m.consumers[k].at.Claiming? || m.consumers[k].at.CountingStrand?)
    ensures ConsumerStep(Wrapped32(c), Wrap(m), k) == Wrap(ConsumerStep(c, m, k))
  {
    assert Wrap(m).consumers[k] == WrapConsumer(m.consumers[k]);
    ConsumerPut(m.consumers, k, ConsumerStep(c, m, k).consumers[k]);
    ToInt32Add(m.dequeueTicket, 1);
    ToInt32Add(m.strandedClaims, 1);
  }

  lemma {:induction false} GateWraps(c: Config, n: nat, m: Machine, k: nat)
    requires Accepted(c, n) && m.Shaped(c) && Wrap(m).Shaped(Wrapped32(c)) && k < c.consumers
    requires Agrees(c, m, m.consumers[k]) && m.consumers[k].at.AtGate?
    ensures ConsumerStep(Wrapped32(c), Wrap(m), k) == Wrap(ConsumerStep(c, m, k))
  {
    assert Wrap(m).consumers[k] == WrapConsumer(m.consumers[k]);
    ConsumerPut(m.consumers, k, ConsumerStep(c, m, k).consumers[k]);
    GateDiff(c, n, m, m.consumers[k].held.ticket);
  }

  lemma GateDiff(c: Config, n: nat, m: Machine, d: int)
    requires Accepted(c, n) && m.Shaped(c)
    requires var stamp := m.gen[c.arith.Slot(d, c.capacity)];
      SignedDiff(ToInt32(stamp), ToInt32(ToInt32(d) + 1)) == stamp - (d + 1)
    ensures var stamp := WrapAll(m.gen)[Wrapped.Slot(ToInt32(d), c.capacity)];
      Wrapped.Diff(stamp, Wrapped.Lane(ToInt32(d) + 1)) == m.gen[c.arith.Slot(d, c.capacity)] - (d + 1)
  {
    SameSlot(c, n, d);
  }

  lemma {:induction false} ReadingWraps(c: Config, n: nat, m: Machine, k: nat)
    requires Accepted(c, n) && m.Shaped(c) && Wrap(m).Shaped(Wrapped32(c)) && k < c.consumers
    requires m.consumers[k].at.Reading?
    ensures ConsumerStep(Wrapped32(c), Wrap(m), k) == Wrap(ConsumerStep(c, m, k))
  {
    ConsumerPut(m.consumers, k, ConsumerStep(c, m, k).consumers[k]);
    var d := m.consumers[k].held.ticket;
    SameSlot(c, n, d);
    ToInt32Add(d, c.capacity);
    var slot := c.arith.Slot(d, c.capacity);
    assert WrapAll(m.gen[slot := d + c.capacity]) == WrapAll(m.gen)[slot := ToInt32(d + c.capacity)];
  }

  lemma {:induction false} StepWraps(c: Config, n: nat, s: State, a: Action)
    requires Accepted(c, n) && Inv(c, s) && Small(s.m)
    ensures Wrap(s.m).Shaped(Wrapped32(c))
    ensures Step(Wrapped32(c), Wrap(s.m), a) == Wrap(Step(c, s.m, a))
  {
    Same(c, s, n);
    match a
    case Push(_, _) => PushWraps(c, s.m, a);
    case Resume(p) => if p < c.threads { ProducerWraps(c, n, s, p); }
    case Advance(k) => if k < c.consumers { ConsumerWraps(c, n, s, k); }
    case Close =>
    case _ => CallWraps(c, s.m, a);
  }

  lemma PushWraps(c: Config, m: Machine, a: Action)
    requires c.arith.Unbounded? && m.Shaped(c) && Wrap(m).Shaped(Wrapped32(c)) && a.Push?
    ensures Step(Wrapped32(c), Wrap(m), a) == Wrap(Step(c, m, a))
  {
    if a.p < c.threads && m.producers[a.p].Idle? && |a.frame| == c.words {
      ProducerPut(m.producers, a.p, Scanning(a.frame, m.frontier, m.frontier, 0));
    }
  }

  lemma CallWraps(c: Config, m: Machine, a: Action)
    requires c.arith.Unbounded? && m.Shaped(c) && Wrap(m).Shaped(Wrapped32(c)) && (a.Pull? || a.AskDrained?)
    ensures Step(Wrapped32(c), Wrap(m), a) == Wrap(Step(c, m, a))
  {
    if a.k < c.consumers {
      assert Wrap(m).consumers[a.k] == WrapConsumer(m.consumers[a.k]);
      ConsumerPut(m.consumers, a.k, Step(c, m, a).consumers[a.k]);
    }
  }

  /** The history does not notice the wrap: a ticket held is below 2^31, so its lane value is itself. */
  lemma {:induction false} SameRecord(c: Config, s: State, a: Action)
    requires c.arith.Unbounded? && Inv(c, s) && Small(s.m) && Wrap(s.m).Shaped(Wrapped32(c))
    ensures Record(Wrapped32(c), Wrap(s.m), s.l, a) == Record(c, s.m, s.l, a)
  {
    forall k | 0 <= k < c.consumers && s.m.consumers[k].held.Claim?
      ensures ToInt32(s.m.consumers[k].held.ticket) == s.m.consumers[k].held.ticket
    {
      HeldSmall(c, s, k);
    }
    RecordWraps(c, s.m, s.l, a);
  }

  lemma {:induction false} HeldSmall(c: Config, s: State, k: nat)
    requires Inv(c, s) && Small(s.m) && k < c.consumers && s.m.consumers[k].held.Claim?
    ensures ToInt32(s.m.consumers[k].held.ticket) == s.m.consumers[k].held.ticket
  {
    assert HeldOk(c, s, k) by {
      assert ConsumerOk(c, s, k);
    }
  }

  lemma RecordWraps(c: Config, m: Machine, l: Log, a: Action)
    requires c.arith.Unbounded? && m.Shaped(c) && Wrap(m).Shaped(Wrapped32(c)) && |l.outcomes| == c.consumers
    requires forall k :: 0 <= k < c.consumers && m.consumers[k].held.Claim?
               ==> ToInt32(m.consumers[k].held.ticket) == m.consumers[k].held.ticket
    ensures Record(Wrapped32(c), Wrap(m), l, a) == Record(c, m, l, a)
  {
    if a.Advance? && a.k < c.consumers {
      assert Wrap(m).consumers[a.k] == WrapConsumer(m.consumers[a.k]);
    }
  }

  ghost predicate AlwaysSmall(c: Config, actions: seq<Action>)
    requires c.Valid()
  {
    forall i :: 0 <= i < |actions| ==> Small(Run(c, actions[..i]).m)
  }

  /** In every run below 2^31 tickets the Int32 lanes, the slots touched and every thread's position are
      those of the unbounded protocol, wrapped, and the history is the same; so all its theorems hold of the
      lanes. */
  lemma {:induction false} Int32Refines(c: Config, n: nat, actions: seq<Action>)
    requires Accepted(c, n) && c.threads <= c.producerCount && AlwaysSmall(c, actions)
    ensures Run(Wrapped32(c), actions) == State(Wrap(Run(c, actions).m), Run(c, actions).l)
    decreases |actions|
  {
    if actions == [] {
      StartWraps(c);
    } else {
      var init := actions[..|actions| - 1];
      forall i | 0 <= i < |init| ensures Small(Run(c, init[..i]).m) {
        assert init[..i] == actions[..i];
      }
      Int32Refines(c, n, init);
      RunKeeps(c, init);
      StepWraps(c, n, Run(c, init), actions[|actions| - 1]);
      SameRecord(c, Run(c, init), actions[|actions| - 1]);
    }
  }

  lemma StartWraps(c: Config)
    requires c.Valid() && c.arith.Unbounded?
    ensures InitLayout(Wrapped32(c)) == Wrap(InitLayout(c))
  {
    var m32, m := InitLayout(Wrapped32(c)), InitLayout(c);
    forall i | 0 <= i < c.capacity ensures m32.gen[i] == WrapAll(m.gen)[i] {
      assert m.gen[i] == c.arith.Lane(i) && m32.gen[i] == Wrapped.Lane(i);
    }
    assert m32.gen == WrapAll(m.gen);
    assert m32.producers == WrapProducers(m.producers);
    assert m32.consumers == WrapConsumers(m.consumers);
  }
}
