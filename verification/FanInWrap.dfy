/** The Int32 protocol that MpmcRing actually executes refines the unbounded-ticket protocol: same
    branches, same slots, lanes equal modulo 2^32, as long as no parked `push` is 2^31 tickets late. */
module FanInWrap {
  import opened Int32
  import opened Tickets
  import opened FanInRing
  import opened FanInSafety

  function WrapProducer(p: Producer): Producer {
    match p
    case LoadedTicket(frame, w) => LoadedTicket(frame, ToInt32(w))
    case Admitted(frame, w) => Admitted(frame, ToInt32(w))
    case Writing(frame, t, k) => Writing(frame, ToInt32(t), k)
    case Idle => p
    case Dropping(_) => p
  }

  function WrapProducers(ps: seq<Producer>): (qs: seq<Producer>)
    ensures |qs| == |ps| && forall i :: 0 <= i < |ps| ==> qs[i] == WrapProducer(ps[i])
  {
    seq(|ps|, i requires 0 <= i < |ps| => WrapProducer(ps[i]))
  }

  function WrapConsumer(k: Consumer): Consumer {
    match k
    case Resting => Resting
    case LoadedHead(head) => LoadedHead(ToInt32(head))
    case CountingLoss(start, target, lost) => CountingLoss(ToInt32(start), ToInt32(target), lost)
    case AtGate(start, head) => AtGate(ToInt32(start), ToInt32(head))
    case Reading(head, out) => Reading(ToInt32(head), out)
    case CountingOverrun(head) => CountingOverrun(ToInt32(head))
    case CountingTorn(head) => CountingTorn(ToInt32(head))
    case SkippingHead(head) => SkippingHead(ToInt32(head))
    case StoringCatchUp(head) => StoringCatchUp(ToInt32(head))
  }

  /** The Int32 lanes that stand for an unbounded machine. */
  function Wrap(m: Machine): Machine {
    Machine(ToInt32(m.enqueueTicket), ToInt32(m.dequeuePos), ToInt32(m.droppedFrames),
      ToInt32(m.overrunLost), ToInt32(m.tornFrames),
      WrapAll(m.gen), m.payload, WrapProducers(m.producers), WrapConsumer(m.consumer))
  }

  /** No producer parked between its two loads has been overtaken by more than 2^31 deliveries. */
  ghost predicate Prompt(m: Machine) {
    forall p :: 0 <= p < |m.producers| && m.producers[p].LoadedTicket? ==>
      m.dequeuePos - m.producers[p].w <= TWO_31
  }

  /** A constructor-accepted ring: a power-of-two capacity up to 2^30. */
  ghost predicate Accepted(c: Config, k: nat) {
    c.Valid() && c.arith.Unbounded? && 1 <= k <= 30 && c.capacity == Pow2(k)
  }

  function Wrapped32(c: Config): Config { c.(arith := Wrapped) }

  lemma SameSlot(c: Config, k: nat, t: int)
    requires Accepted(c, k)
    ensures Wrapped.Slot(ToInt32(t), c.capacity) == c.arith.Slot(t, c.capacity)
  {
    SlotExact(t, k);
  }

  lemma WrapUpdate(ps: seq<Producer>, p: nat, next: Producer)
    requires p < |ps|
    ensures WrapProducers(ps[p := next]) == WrapProducers(ps)[p := WrapProducer(next)]
  {
  }

  lemma {:induction false} ProducerWraps(c: Config, k: nat, s: State, p: nat)
    requires Accepted(c, k) && Inv(c, s) && p < c.threads && (s.m.producers[p].LoadedTicket? ==> Prompt(s.m))
    ensures Wrap(s.m).Shaped(Wrapped32(c))
    ensures ProducerStep(Wrapped32(c), Wrap(s.m), p) == Wrap(ProducerStep(c, s.m, p))
  {
    WrapUpdate(s.m.producers, p, ProducerStep(c, s.m, p).producers[p]);
    match s.m.producers[p]
    case Idle =>
      assert WrapProducers(s.m.producers)[p] == Idle;
    case LoadedTicket(_, _) => CheckWraps(c, k, s, p);
    case Dropping(_) => ToInt32Add(s.m.droppedFrames, 1);
    case Admitted(_, _) => ToInt32Add(s.m.enqueueTicket, 1);
    case Writing(_, _, _) => WritingWraps(c, k, s, p);
  }

  /** The envelope check is the one branch whose operands may be arbitrarily stale. */
  lemma {:induction false} CheckWraps(c: Config, k: nat, s: State, p: nat)
    requires Accepted(c, k) && Inv(c, s) && Prompt(s.m) && p < c.threads && s.m.producers[p].LoadedTicket?
    ensures Wrap(s.m).Shaped(Wrapped32(c))
    ensures ProducerStep(Wrapped32(c), Wrap(s.m), p) == Wrap(ProducerStep(c, s.m, p))
  {
    Pow2Limit(k);
    assert ProducerOk(c, s, p);
    SignedDiffExact(s.m.producers[p].w, s.m.dequeuePos);
    WrapUpdate(s.m.producers, p, ProducerStep(c, s.m, p).producers[p]);
  }

  lemma {:induction false} WritingWraps(c: Config, k: nat, s: State, p: nat)
    requires Accepted(c, k) && Inv(c, s) && p < c.threads && s.m.producers[p].Writing?
    ensures Wrap(s.m).Shaped(Wrapped32(c))
    ensures ProducerStep(Wrapped32(c), Wrap(s.m), p) == Wrap(ProducerStep(c, s.m, p))
  {
    var m := s.m;
    var Writing(_, t, j) := m.producers[p];
    SameSlot(c, k, t);
    WrapUpdate(m.producers, p, ProducerStep(c, m, p).producers[p]);
    if j == c.words {
      var slot := c.arith.Slot(t, c.capacity);
      ToInt32Add(t, 0);
      assert WrapAll(m.gen[slot := t]) == WrapAll(m.gen)[slot := ToInt32(t)];
    }
  }

  lemma {:induction false} ConsumerWraps(c: Config, k: nat, s: State)
    requires Accepted(c, k) && Inv(c, s)
    ensures Wrap(s.m).Shaped(Wrapped32(c))
    ensures ConsumerStep(Wrapped32(c), Wrap(s.m)) == Wrap(ConsumerStep(c, s.m))
  {
    var m := s.m;
    Pow2Limit(k);
    match m.consumer
    case Resting =>
    case LoadedHead(head) =>
      SignedDiffExact(m.enqueueTicket, head);
    case AtGate(start, head) =>
      assert SlotOk(c, s, head);
      SignedDiffExact(m.gen[c.arith.Slot(head, c.capacity)], head);
      GateWraps(c, k, m);
    case Reading(head, out) =>
      ReadingWraps(c, k, m);
  }

  lemma GateWraps(c: Config, k: nat, m: Machine)
    requires Accepted(c, k) && m.Shaped(c) && Wrap(m).Shaped(Wrapped32(c)) && m.consumer.AtGate?
    requires var head := m.consumer.head; var stamp := m.gen[c.arith.Slot(head, c.capacity)];
      SignedDiff(ToInt32(stamp), ToInt32(head)) == stamp - head
      && (ToInt32(head) == ToInt32(m.consumer.start) <==> head == m.consumer.start)
    ensures ConsumerStep(Wrapped32(c), Wrap(m)) == Wrap(ConsumerStep(c, m))
  {
    SameSlot(c, k, m.consumer.head);
  }

  lemma ReadingWraps(c: Config, k: nat, m: Machine)
    requires Accepted(c, k) && m.Shaped(c) && Wrap(m).Shaped(Wrapped32(c)) && m.consumer.Reading?
    ensures ConsumerStep(Wrapped32(c), Wrap(m)) == Wrap(ConsumerStep(c, m))
  {
    SameSlot(c, k, m.consumer.head);
    ToInt32Add(m.consumer.head, 1);
  }

  /** The step is an envelope check. */
  predicate Checks(c: Config, m: Machine, a: Action)
    requires m.Shaped(c)
  {
    a.Resume? && a.p < c.threads && m.producers[a.p].LoadedTicket?
  }

  lemma {:induction false} StepWraps(c: Config, k: nat, s: State, a: Action)
    requires Accepted(c, k) && Inv(c, s) && (Checks(c, s.m, a) ==> Prompt(s.m))
    ensures Wrap(s.m).Shaped(Wrapped32(c))
    ensures Step(Wrapped32(c), Wrap(s.m), a) == Wrap(Step(c, s.m, a))
  {
    match a
    case Push(p, frame) =>
      if p < c.threads && s.m.producers[p].Idle? && |frame| == c.words {
        var next := LoadedTicket(frame, s.m.enqueueTicket);
        assert WrapProducers(s.m.producers[p := next])
            == WrapProducers(s.m.producers)[p := WrapProducer(next)];
      }
    case Resume(p) =>
      if p < c.threads {
        ProducerWraps(c, k, s, p);
      }
    case Pull => ConsumerWraps(c, k, s);
  }

  /** The history does not notice the wrap. */
  lemma SameRecord(c: Config, s: State, a: Action)
    requires c.arith.Unbounded? && s.m.Shaped(c) && Wrap(s.m).Shaped(Wrapped32(c))
    ensures Record(Wrapped32(c), Wrap(s.m), s.l, a) == Record(c, s.m, s.l, a)
  {
  }

  lemma StartWraps(c: Config)
    requires c.Valid() && c.arith.Unbounded?
    ensures InitLayout(Wrapped32(c)) == Wrap(InitLayout(c))
  {
    var g32, g := InitLayout(Wrapped32(c)).gen, InitLayout(c).gen;
    assert g32 == WrapAll(g);
    assert InitLayout(Wrapped32(c)).producers == WrapProducers(InitLayout(c).producers);
  }

  ghost predicate AlwaysPrompt(c: Config, actions: seq<Action>)
    requires c.Valid()
  {
    forall n :: 0 <= n < |actions| ==> Prompt(Run(c, actions[..n]).m)
  }

  /** In every run in which no parked push lags 2^31 deliveries, the shared Int32 lanes, the slots
      touched and every thread's position are those of the unbounded protocol, wrapped; and the same
      frames were pushed and delivered. */
  lemma {:induction false} Int32Refines(c: Config, k: nat, actions: seq<Action>)
    requires Accepted(c, k) && c.threads <= c.producerCount && AlwaysPrompt(c, actions)
    ensures Run(Wrapped32(c), actions) == State(Wrap(Run(c, actions).m), Run(c, actions).l)
    decreases |actions|
  {
    if actions == [] {
      StartWraps(c);
    } else {
      var init := actions[..|actions| - 1];
      forall n | 0 <= n < |init| ensures Prompt(Run(c, init[..n]).m) {
        assert init[..n] == actions[..n];
      }
      Int32Refines(c, k, init);
      RunKeeps(c, init);
      StepWraps(c, k, Run(c, init), actions[|actions| - 1]);
      SameRecord(c, Run(c, init), actions[|actions| - 1]);
    }
  }

  /** Exactly which lags the Int32 check misreads: a push whose enqueue load is `lag` tickets behind
      the consumer (so the ring is empty for it) is admitted, as it should be, unless the wrapped
      difference lands in [limit, 2^31). */
  lemma {:induction false} StaleCheckExact(c: Config, w: int, dequeuePos: int)
    requires c.Valid() && w <= dequeuePos && c.capacity <= 0x4000_0000
    ensures var lag, limit := dequeuePos - w, c.capacity - c.Slack();
      SignedDiff(ToInt32(w), ToInt32(dequeuePos)) < limit
      <==> lag % TWO_32 == 0 || lag % TWO_32 <= TWO_31 || lag % TWO_32 > TWO_32 - limit
  {
    SignedDiffWraps(w, dequeuePos);
    NegatedResidue(dequeuePos - w);
  }

  lemma NegatedResidue(lag: int)
    ensures (-lag) % TWO_32 == if lag % TWO_32 == 0 then 0 else TWO_32 - lag % TWO_32
  {
    var q, r := lag / TWO_32, lag % TWO_32;
    assert lag == TWO_32 * q + r;
    ModUnique(-lag, TWO_32, if r == 0 then -q else -q - 1, if r == 0 then 0 else TWO_32 - r);
  }
}
