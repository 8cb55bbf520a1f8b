/** The Int32 protocol that SpmcRing executes refines the unbounded one while no reader falls too far behind
    inside a call: 2^31 tickets when it loads the write cursor or reads a stamp again, 2^30 when it compares a
    stamp with its head, because a stamp counts two per ticket. Beyond that the comparisons misread. */
module BroadcastWrap {
  import opened Int32
  import opened Tickets
  import opened BroadcastRing
  import opened BroadcastSafety

  const TWO_30: int := 0x4000_0000

  function WrapProducer(p: Producer): Producer {
    match p
    case Idle => p
    case LoadedTicket(frame, t) => LoadedTicket(frame, ToInt32(t))
    case Writing(frame, t, k) => Writing(frame, ToInt32(t), k)
    case Advancing(t) => Advancing(ToInt32(t))
  }

  function WrapPosition(at: Position): Position {
    match at
    case Resting => Resting
    case LoadedHead(head) => LoadedHead(ToInt32(head))
    case CountingLoss(start, target, lost) => CountingLoss(ToInt32(start), ToInt32(target), lost)
    case AtGate(start, head) => AtGate(ToInt32(start), ToInt32(head))
    case Reading(head, seq1, out) => Reading(ToInt32(head), ToInt32(seq1), out)
    case CountingTorn(head) => CountingTorn(ToInt32(head))
    case CountingDrop(head) => CountingDrop(ToInt32(head))
    case Storing(head, frame) => Storing(ToInt32(head), frame)
    case StoringSkip(head) => StoringSkip(ToInt32(head))
    case StoringCatchUp(head) => StoringCatchUp(ToInt32(head))
  }

  function WrapReader(r: Reader): Reader {
    Reader(ToInt32(r.dequeuePos), ToInt32(r.dropped), ToInt32(r.tornGuarded), WrapPosition(r.at))
  }

  function WrapReaders(rs: seq<Reader>): (qs: seq<Reader>)
    ensures |qs| == |rs| && forall i :: 0 <= i < |rs| ==> qs[i] == WrapReader(rs[i])
  {
    seq(|rs|, i requires 0 <= i < |rs| => WrapReader(rs[i]))
  }

  /** The Int32 lanes that stand for an unbounded machine. */
  function Wrap(m: Machine): Machine {
    Machine(ToInt32(m.writeTicket), WrapAll(m.gen), m.payload, WrapProducer(m.producer), WrapReaders(m.readers))
  }

  function Wrapped32(c: Config): Config { c.(arith := Wrapped) }

  /** A constructor-accepted ring: a power-of-two capacity up to 2^29. */
  ghost predicate Accepted(c: Config, e: nat) {
    c.Valid() && c.arith.Unbounded? && 1 <= e <= 29 && c.capacity == Pow2(e) && c.capacity <= 0x2000_0000
  }

  /** How many tickets' slots have been opened for writing. */
  function Opened(m: Machine): int {
    if m.producer.Writing? || m.producer.Advancing? then m.writeTicket + 1 else m.writeTicket
  }

  /** A reader about to compare is not too far behind. */
  predicate PromptReader(c: Config, m: Machine, r: Reader) {
    match r.at
    case LoadedHead(head) => m.writeTicket - head < TWO_31
    case AtGate(_, head) => Opened(m) - head <= TWO_30
    case Reading(head, _, out) => |out| == c.words ==> Opened(m) - head <= TWO_31
    case _ => true
  }

  ghost predicate Prompt(c: Config, m: Machine) {
    forall k :: 0 <= k < |m.readers| ==> PromptReader(c, m, m.readers[k])
  }

  ghost predicate AlwaysPrompt(c: Config, actions: seq<Action>)
    requires c.Valid()
  {
    forall n :: 0 <= n < |actions| ==> Prompt(c, Run(c, actions[..n]).m)
  }

  /** The overload net has jumped less than 2^31 tickets. */
  predicate NearReader(r: Reader) {
    match r.at
    case CountingLoss(start, target, _) => target - start < TWO_31
    case AtGate(start, head) => head - start < TWO_31
    case _ => true
  }

  ghost predicate Near(m: Machine) {
    forall k :: 0 <= k < |m.readers| ==> NearReader(m.readers[k])
  }

  lemma SameSlot(c: Config, e: nat, t: int)
    requires Accepted(c, e)
    ensures Wrapped32(c).Slot(ToInt32(t)) == c.Slot(t)
  {
    SlotExact(t, e);
  }

  /** The stamps computed from a lane are the wrapped stamps of its ticket. */
  lemma StampWraps(t: int)
    ensures ToInt32(Complete(ToInt32(t))) == ToInt32(Complete(t))
    ensures ToInt32(Busy(ToInt32(t))) == ToInt32(Busy(t))
  {
    ToInt32Add(t, ToInt32(t));
    ToInt32Add(t, t);
    ToInt32Add(t, ToInt32(t) + 1);
    ToInt32Add(t, t + 1);
  }

  /** The stamp in a head's slot lies between a lap before the head and the last ticket opened. */
  lemma {:induction false} StampRange(c: Config, s: State, head: int)
    requires Inv(c, s) && 0 <= head <= |s.l.pushed|
    ensures Complete(head - c.capacity) <= s.m.gen[c.Slot(head)] < Complete(|s.l.pushed|)
    ensures Opened(s.m) == |s.l.pushed|
  {
    var n := |s.l.pushed|;
    if head == n {
      NextLap(n - c.capacity, c.capacity);
      assert SlotOk(c, s, n - c.capacity);
    } else {
      var t := LiveTicket(c, n, head);
      assert SlotOk(c, s, t);
    }
  }

  // ----- one step -----

  lemma WrapPut(rs: seq<Reader>, k: nat, r: Reader)
    requires k < |rs|
    ensures WrapReaders(rs[k := r]) == WrapReaders(rs)[k := WrapReader(r)]
  {
  }

  lemma GenPut(gen: seq<int>, slot: nat, x: int)
    requires slot < |gen|
    ensures WrapAll(gen[slot := x]) == WrapAll(gen)[slot := ToInt32(x)]
  {
  }

  lemma Same(c: Config, m: Machine)
    requires c.arith.Unbounded? && m.Shaped(c)
    ensures Wrap(m).Shaped(Wrapped32(c))
  {
    forall r | 0 <= r < c.consumers && Wrap(m).readers[r].at.Reading?
      ensures |Wrap(m).readers[r].at.out| <= c.words
    {
      assert Wrap(m).readers[r] == WrapReader(m.readers[r]);
    }
  }

  lemma {:induction false} ProducerWraps(c: Config, e: nat, m: Machine)
    requires Accepted(c, e) && m.Shaped(c)
    ensures Wrap(m).Shaped(Wrapped32(c))
    ensures ProducerStep(Wrapped32(c), Wrap(m)) == Wrap(ProducerStep(c, m))
  {
    Same(c, m);
    match m.producer
    case Idle =>
    case LoadedTicket(_, t) => OpenWraps(c, e, m);
    case Writing(_, t, j) => WritingWraps(c, e, m);
    case Advancing(t) => ToInt32Add(t, 1);
  }

  lemma OpenWraps(c: Config, e: nat, m: Machine)
    requires Accepted(c, e) && m.Shaped(c) && Wrap(m).Shaped(Wrapped32(c)) && m.producer.LoadedTicket?
    ensures ProducerStep(Wrapped32(c), Wrap(m)) == Wrap(ProducerStep(c, m))
  {
    var t := m.producer.ticket;
    SameSlot(c, e, t);
    StampWraps(t);
    GenPut(m.gen, c.Slot(t), Busy(t));
  }

  lemma WritingWraps(c: Config, e: nat, m: Machine)
    requires Accepted(c, e) && m.Shaped(c) && Wrap(m).Shaped(Wrapped32(c)) && m.producer.Writing?
    ensures ProducerStep(Wrapped32(c), Wrap(m)) == Wrap(ProducerStep(c, m))
  {
    var t := m.producer.ticket;
    SameSlot(c, e, t);
    StampWraps(t);
    GenPut(m.gen, c.Slot(t), Complete(t));
  }

  /** The comparison a reader's next step makes, if it makes one, reads the same on the lanes. */
  ghost predicate Agrees(c: Config, m: Machine, r: Reader)
    requires m.Shaped(c)
  {
    match r.at
    case LoadedHead(head) =>
      && SignedDiff(ToInt32(m.writeTicket), ToInt32(head)) == m.writeTicket - head
      && (m.writeTicket - head > c.capacity ==>
            SignedDiff(ToInt32(m.writeTicket - c.capacity), ToInt32(head)) == m.writeTicket - c.capacity - head)
    case AtGate(start, head) =>
      && SignedDiff(ToInt32(m.gen[c.Slot(head)]), ToInt32(Complete(head))) == m.gen[c.Slot(head)] - Complete(head)
      && (ToInt32(head) == ToInt32(start) <==> head == start)
    case Reading(head, seq1, out) =>
      |out| == c.words ==> (ToInt32(m.gen[c.Slot(head)]) == ToInt32(seq1) <==> m.gen[c.Slot(head)] == seq1)
    case _ => true
  }

  lemma {:induction false} ReaderAgrees(c: Config, e: nat, s: State, k: nat)
    requires Accepted(c, e) && Inv(c, s) && k < c.consumers
    requires PromptReader(c, s.m, s.m.readers[k]) && NearReader(s.m.readers[k])
    ensures Agrees(c, s.m, s.m.readers[k])
  {
    assert ReaderOk(c, s, k);
    match s.m.readers[k].at
    case LoadedHead(head) =>
      SignedDiffExact(s.m.writeTicket, head);
      if s.m.writeTicket - head > c.capacity {
        SignedDiffExact(s.m.writeTicket - c.capacity, head);
      }
    case AtGate(start, head) =>
      StampRange(c, s, head);
      SignedDiffExact(s.m.gen[c.Slot(head)], Complete(head));
      ToInt32Injective(head, start);
    case Reading(head, seq1, out) =>
      StampRange(c, s, head);
      if |out| == c.words {
        ToInt32Injective(s.m.gen[c.Slot(head)], seq1);
      }
    case _ =>
  }

  lemma ReaderWraps(c: Config, e: nat, m: Machine, r: Reader)
    requires Accepted(c, e) && m.Shaped(c) && Wrap(m).Shaped(Wrapped32(c)) && Agrees(c, m, r)
    requires r.at.Reading? ==> |r.at.out| <= c.words
    ensures ReaderStep(Wrapped32(c), Wrap(m), WrapReader(r)) == WrapReader(ReaderStep(c, m, r))
  {
    match r.at
    case LoadedHead(_) => NetWraps(c, m, r);
    case AtGate(_, _) => GateWraps(c, e, m, r);
    case Reading(_, _, _) => ReadWraps(c, e, m, r);
    case _ => CountWraps(c, m, r);
  }

  lemma NetWraps(c: Config, m: Machine, r: Reader)
    requires c.arith.Unbounded? && m.Shaped(c) && Wrap(m).Shaped(Wrapped32(c)) && Agrees(c, m, r) && r.at.LoadedHead?
    ensures ReaderStep(Wrapped32(c), Wrap(m), WrapReader(r)) == WrapReader(ReaderStep(c, m, r))
  {
    ToInt32Add(m.writeTicket, 0 - c.capacity);
  }

  lemma GateWraps(c: Config, e: nat, m: Machine, r: Reader)
    requires Accepted(c, e) && m.Shaped(c) && Wrap(m).Shaped(Wrapped32(c)) && Agrees(c, m, r) && r.at.AtGate?
    ensures ReaderStep(Wrapped32(c), Wrap(m), WrapReader(r)) == WrapReader(ReaderStep(c, m, r))
  {
    GateDiff(c, e, m, r.at.head);
    StampWraps(r.at.head);
  }

  lemma GateDiff(c: Config, e: nat, m: Machine, head: int)
    requires Accepted(c, e) && m.Shaped(c)
    requires var slot := c.Slot(head);
      SignedDiff(ToInt32(m.gen[slot]), ToInt32(Complete(head))) == m.gen[slot] - Complete(head)
    ensures var seq1 := WrapAll(m.gen)[Wrapped32(c).Slot(ToInt32(head))];
      && seq1 == ToInt32(m.gen[c.Slot(head)])
      && Wrapped.Diff(seq1, Wrapped.Lane(Complete(ToInt32(head)))) == m.gen[c.Slot(head)] - Complete(head)
  {
    SameSlot(c, e, head);
    StampWraps(head);
  }

  lemma ReadWraps(c: Config, e: nat, m: Machine, r: Reader)
    requires Accepted(c, e) && m.Shaped(c) && Wrap(m).Shaped(Wrapped32(c)) && Agrees(c, m, r)
    requires r.at.Reading? && |r.at.out| <= c.words
    ensures ReaderStep(Wrapped32(c), Wrap(m), WrapReader(r)) == WrapReader(ReaderStep(c, m, r))
  {
    SameSlot(c, e, r.at.head);
  }

  lemma CountWraps(c: Config, m: Machine, r: Reader)
    requires c.arith.Unbounded? && m.Shaped(c) && Wrap(m).Shaped(Wrapped32(c))
    requires !r.at.LoadedHead? && !r.at.AtGate? && !r.at.Reading?
    ensures ReaderStep(Wrapped32(c), Wrap(m), WrapReader(r)) == WrapReader(ReaderStep(c, m, r))
  {
    match r.at
    case CountingLoss(_, _, lost) => ToInt32Add(r.dropped, lost);
    case CountingTorn(_) => ToInt32Add(r.tornGuarded, 1);
    case CountingDrop(_) => ToInt32Add(r.dropped, 1);
    case Storing(head, _) => ToInt32Add(head, 1);
    case StoringSkip(head) => ToInt32Add(head, 1);
    case _ =>
  }

  lemma {:induction false} StepWraps(c: Config, e: nat, s: State, a: Action)
    requires Accepted(c, e) && Inv(c, s) && Prompt(c, s.m) && Near(s.m)
    ensures Wrap(s.m).Shaped(Wrapped32(c))
    ensures Step(Wrapped32(c), Wrap(s.m), a) == Wrap(Step(c, s.m, a))
  {
    Same(c, s.m);
    match a
    case Push(_) =>
    case Resume => ProducerWraps(c, e, s.m);
    case Pull(k) =>
      if k < c.consumers {
        var r := s.m.readers[k];
        ReaderAgrees(c, e, s, k);
        ReaderWraps(c, e, s.m, r);
        WrapPut(s.m.readers, k, ReaderStep(c, s.m, r));
      }
  }

  lemma NearKeeps(c: Config, s: State, a: Action)
    requires c.arith.Unbounded? && s.m.Shaped(c) && Prompt(c, s.m) && Near(s.m)
    ensures Near(Step(c, s.m, a))
  {
    if a.Pull? && a.r < c.consumers {
      var r := s.m.readers[a.r];
      assert PromptReader(c, s.m, r) && NearReader(r);
      assert NearReader(ReaderStep(c, s.m, r));
    }
  }

  // ----- runs -----

  /** The same frames were pushed, and each reader was handed the same frames in the same order. */
  ghost predicate SameFrames(l: Log, l': Log) {
    && l.pushed == l'.pushed && |l.outcomes| == |l'.outcomes|
    && forall k :: 0 <= k < |l.outcomes| ==> l.outcomes[k].frames == l'.outcomes[k].frames
  }

  lemma RecordSame(c: Config, m: Machine, l: Log, l': Log, a: Action)
    requires c.arith.Unbounded? && m.Shaped(c) && Wrap(m).Shaped(Wrapped32(c))
    requires |l.outcomes| == c.consumers && SameFrames(l, l')
    ensures SameFrames(Record(c, m, l, a), Record(Wrapped32(c), Wrap(m), l', a))
  {
    if a.Pull? && a.r < c.consumers {
      assert Wrap(m).readers[a.r] == WrapReader(m.readers[a.r]);
    }
  }

  /** In every run in which no reader is too far behind where it compares, the Int32 lanes, the slots touched and
      every thread's position are those of the unbounded protocol, wrapped; and the same frames were delivered. */
  lemma {:induction false} Int32Refines(c: Config, e: nat, actions: seq<Action>)
    requires Accepted(c, e) && AlwaysPrompt(c, actions)
    ensures Near(Run(c, actions).m)
    ensures Run(Wrapped32(c), actions).m == Wrap(Run(c, actions).m)
    ensures SameFrames(Run(c, actions).l, Run(Wrapped32(c), actions).l)
    decreases |actions|
  {
    if actions == [] {
      StartWraps(c);
    } else {
      var init, a := actions[..|actions| - 1], actions[|actions| - 1];
      forall n | 0 <= n < |init| ensures Prompt(c, Run(c, init[..n]).m) {
        assert init[..n] == actions[..n];
      }
      Int32Refines(c, e, init);
      RunKeeps(c, init);
      var s := Run(c, init);
      StepWraps(c, e, s, a);
      NearKeeps(c, s, a);
      RecordSame(c, s.m, s.l, Run(Wrapped32(c), init).l, a);
    }
  }

  lemma StartWraps(c: Config)
    requires c.Valid() && c.arith.Unbounded?
    ensures InitLayout(Wrapped32(c)) == Wrap(InitLayout(c))
  {
    var m32, m := InitLayout(Wrapped32(c)), InitLayout(c);
    forall i | 0 <= i < c.capacity ensures m32.gen[i] == WrapAll(m.gen)[i] {
      assert m.gen[i] == Complete(i - c.capacity) && m32.gen[i] == ToInt32(Complete(i - c.capacity));
    }
    assert m32.gen == WrapAll(m.gen);
    assert m32.readers == WrapReaders(m.readers);
  }

  /** So the lanes as they are in memory keep the promise: what a reader was handed are frames pushed under
      increasing tickets, whole; and between its calls delivered and counted-lost tickets make up its cursor. */
  lemma {:induction false} Int32DeliversWhole(c: Config, e: nat, actions: seq<Action>, k: nat)
    returns (tickets: seq<int>, lost: nat)
    requires Accepted(c, e) && AlwaysPrompt(c, actions) && k < c.consumers
    ensures var s := Run(Wrapped32(c), actions);
      DeliveredAs(s.l.pushed, s.l.outcomes[k].frames, tickets)
      && (s.m.readers[k].at.Resting? ==> LanesCount(s.m.readers[k], |tickets|, lost))
  {
    Int32Refines(c, e, actions);
    tickets, lost := Delivered(c, actions, Run(c, actions), k);
    assert Wrap(Run(c, actions).m).readers[k] == WrapReader(Run(c, actions).m.readers[k]);
    assert Run(Wrapped32(c), actions).l.outcomes[k].frames == Run(c, actions).l.outcomes[k].frames;
  }

  /** These frames were pushed under these tickets, which increase. */
  ghost predicate DeliveredAs(pushed: seq<Frame>, frames: seq<Frame>, tickets: seq<int>) {
    && |tickets| == |frames| && (forall i, j :: 0 <= i < j < |tickets| ==> tickets[i] < tickets[j])
    && (forall i :: 0 <= i < |frames| ==> 0 <= tickets[i] < |pushed| && frames[i] == pushed[tickets[i]])
  }

  predicate LanesCount(r: Reader, delivered: nat, lost: nat) {
    r.dropped == ToInt32(lost) && r.dequeuePos == ToInt32(delivered + lost)
  }

  lemma {:induction false} Delivered(c: Config, actions: seq<Action>, s: State, k: nat)
    returns (tickets: seq<int>, lost: nat)
    requires c.Valid() && c.arith.Unbounded? && k < c.consumers && s == Run(c, actions)
    ensures DeliveredAs(s.l.pushed, s.l.outcomes[k].frames, tickets)
    ensures s.m.readers[k].at.Resting? ==> LanesCount(WrapReader(s.m.readers[k]), |tickets|, lost)
  {
    RunKeeps(c, actions);
    assert ReaderOk(c, s, k);
    tickets, lost := s.l.outcomes[k].tickets, |s.l.outcomes[k].lost|;
    CountDelivered(tickets, s.l.outcomes[k].lost, Cursor(s.m.readers[k]));
  }

  // ----- where the lanes misread -----

  lemma HalfTurn(x: int)
    ensures ToInt32(2 * x) == 0 <==> x % TWO_31 == 0
    ensures ToInt32(2 * x) >= 2 <==> 0 < x % TWO_31 < TWO_30
    ensures ToInt32(2 * x + 1) != 0
  {
    var q, r := x / TWO_31, x % TWO_31;
    assert x == TWO_31 * q + r;
    ModUnique(2 * x, TWO_32, q, 2 * r);
    ModUnique(2 * x + 1, TWO_32, q, 2 * r + 1);
  }

  /** The overload net fires exactly for lags that are, modulo 2^32, above the capacity and below 2^31. */
  lemma NetExact(c: Config, m: Machine, r: Reader, head: int, lag: int)
    requires c.arith.Wrapped? && m.Shaped(c) && lag >= 0
    requires r.at == LoadedHead(ToInt32(head)) && m.writeTicket == ToInt32(head + lag)
    ensures ReaderStep(c, m, r).at.CountingLoss? <==> c.capacity < lag % TWO_32 < TWO_31
  {
    SignedDiffWraps(head + lag, head);
  }

  /** Facing the completed stamp of ticket t, the gate takes it for its head's exactly when the two are a multiple
      of 2^31 apart, and for a newer lap's exactly when t is, modulo 2^31, less than 2^30 ahead. */
  lemma GateReads(c: Config, m: Machine, r: Reader, start: int, head: int, t: int)
    requires c.arith.Wrapped? && m.Shaped(c) && r.at == AtGate(start, ToInt32(head))
    requires m.gen[c.Slot(ToInt32(head))] == ToInt32(Complete(t))
    ensures var next := ReaderStep(c, m, r).at;
      && (next.Reading? <==> (t - head) % TWO_31 == 0)
      && (next.CountingDrop? <==> 0 < (t - head) % TWO_31 < TWO_30)
  {
    StampWraps(head);
    SignedDiffWraps(Complete(t), Complete(head));
    HalfTurn(t - head);
  }

  /** A reader that has read its whole payload delivers it exactly when the ticket whose stamp it then finds is a
      multiple of 2^31 after its own, and never while that slot is being written. */
  lemma RereadExact(c: Config, m: Machine, r: Reader, head: int, out: Frame, t: int)
    requires c.arith.Wrapped? && m.Shaped(c) && |out| == c.words
    requires r.at == Reading(ToInt32(head), ToInt32(Complete(head)), out)
    requires var stamp := m.gen[c.Slot(ToInt32(head))]; stamp == ToInt32(Complete(t)) || stamp == ToInt32(Busy(t))
    ensures var stamp := m.gen[c.Slot(ToInt32(head))];
      ReaderStep(c, m, r).at.Storing? <==> stamp == ToInt32(Complete(t)) && (t - head) % TWO_31 == 0
  {
    SignedDiffWraps(Complete(t), Complete(head));
    SignedDiffWraps(Busy(t), Complete(head));
    SignedDiffWraps(Busy(t), Complete(t));
    HalfTurn(t - head);
    HalfTurn(0);
  }
}
