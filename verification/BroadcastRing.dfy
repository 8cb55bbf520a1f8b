/** SpmcRing: one producer that laps freely, many readers that each see every frame through their own
    cursor, guarded by a two-phase seqlock. Every `Atomics` call and payload word is one step. */
module BroadcastRing {
  import opened Tickets

  datatype Config = Config(arith: Arithmetic, capacity: nat, consumers: nat, words: nat) {
    predicate Valid() { capacity >= 2 && consumers >= 1 }
    function Slot(t: int): (s: nat)
      requires capacity > 0
      ensures s < capacity
    {
      arith.Slot(t, capacity)
    }
  }

  function Complete(t: int): int { 2 * t }
  function Busy(t: int): int { 2 * t + 1 }

  /** Where the producer stands inside `push`. */
  datatype Producer =
    | Idle
    | LoadedTicket(frame: Frame, ticket: int)
    | Writing(frame: Frame, ticket: int, done: nat)
    | Advancing(ticket: int)

  /** Where a reader stands inside `pull`. */
  datatype Position =
    | Resting
    | LoadedHead(head: int)
    | CountingLoss(start: int, target: int, lost: int)
    | AtGate(start: int, head: int)
    | Reading(head: int, seq1: int, out: Frame)
    | CountingTorn(head: int)
    | CountingDrop(head: int)
    | Storing(head: int, frame: Frame)
    | StoringSkip(head: int)
    | StoringCatchUp(head: int)

  /** One reader: its shared lanes, and its own position. */
  datatype Reader = Reader(dequeuePos: int, dropped: int, tornGuarded: int, at: Position)

  datatype Machine = Machine(
    writeTicket: int, gen: seq<int>, payload: seq<Frame>, producer: Producer, readers: seq<Reader>)
  {
    predicate Shaped(c: Config) {
      && c.Valid()
      && |gen| == |payload| == c.capacity
      && |readers| == c.consumers
      && (forall s :: 0 <= s < c.capacity ==> |payload[s]| == c.words)
      && (producer.LoadedTicket? || producer.Writing? ==> |producer.frame| == c.words)
      && (producer.Writing? ==> producer.done <= c.words)
      && (forall r :: 0 <= r < c.consumers && readers[r].at.Reading? ==> |readers[r].at.out| <= c.words)
    }
  }

  datatype Action = Push(frame: Frame) | Resume | Pull(r: nat)

  function InitLayout(c: Config): (m: Machine)
    requires c.Valid()
    ensures m.Shaped(c)
    ensures forall s :: 0 <= s < c.capacity ==> m.gen[s] == c.arith.Lane(Complete(s - c.capacity))
  {
    Machine(0,
      seq(c.capacity, s => c.arith.Lane(Complete(s - c.capacity))),
      seq(c.capacity, _ => seq(c.words, _ => 0)),
      Idle,
      seq(c.consumers, _ => Reader(0, 0, 0, Resting)))
  }

  function Step(c: Config, m: Machine, a: Action): (m': Machine)
    requires m.Shaped(c)
    ensures m'.Shaped(c)
  {
    match a
    case Push(frame) =>
      if m.producer.Idle? && |frame| == c.words
      then m.(producer := LoadedTicket(frame, m.writeTicket)) else m
    case Resume => ProducerStep(c, m)
    case Pull(r) =>
      if r < c.consumers then m.(readers := m.readers[r := ReaderStep(c, m, m.readers[r])]) else m
  }

  function ProducerStep(c: Config, m: Machine): (m': Machine)
    requires m.Shaped(c)
    ensures m'.Shaped(c)
  {
    match m.producer
    case Idle => m
    case LoadedTicket(frame, t) =>
      m.(gen := m.gen[c.Slot(t) := c.arith.Lane(Busy(t))], producer := Writing(frame, t, 0))
    case Writing(frame, t, k) =>
      if k < c.words then
        m.(payload := m.payload[c.Slot(t) := m.payload[c.Slot(t)][k := frame[k]]],
           producer := Writing(frame, t, k + 1))
      else
        m.(gen := m.gen[c.Slot(t) := c.arith.Lane(Complete(t))], producer := Advancing(t))
    case Advancing(t) => m.(writeTicket := c.arith.Lane(t + 1), producer := Idle)
  }

  /** A reader's step changes only the reader; it may look at the whole machine. */
  function ReaderStep(c: Config, m: Machine, r: Reader): (r': Reader)
    requires m.Shaped(c) && (r.at.Reading? ==> |r.at.out| <= c.words)
    ensures r'.at.Reading? ==> |r'.at.out| <= c.words
  {
    match r.at
    case Resting => r.(at := LoadedHead(r.dequeuePos))
    case LoadedHead(head) =>
      var w := m.writeTicket;
      if c.arith.Diff(w, head) > c.capacity then
        var target := c.arith.Lane(w - c.capacity);
        r.(at := CountingLoss(head, target, c.arith.Diff(target, head)))
      else r.(at := AtGate(head, head))
    case CountingLoss(start, target, lost) =>
      r.(dropped := if lost > 0 then c.arith.Lane(r.dropped + lost) else r.dropped, at := AtGate(start, target))
    case AtGate(start, head) =>
      var seq1 := m.gen[c.Slot(head)];
      var d := c.arith.Diff(seq1, c.arith.Lane(Complete(head)));
      if d == 0 then r.(at := Reading(head, seq1, []))
      else if d >= 2 then r.(at := CountingDrop(head))
      else if head != start then r.(at := StoringCatchUp(head))
      else r.(at := Resting)
    case Reading(head, seq1, out) =>
      if |out| < c.words then
        r.(at := Reading(head, seq1, out + [m.payload[c.Slot(head)][|out|]]))
      else if m.gen[c.Slot(head)] != seq1 then r.(at := CountingTorn(head))
      else r.(at := Storing(head, out))
    case CountingTorn(head) =>
      r.(tornGuarded := c.arith.Lane(r.tornGuarded + 1), at := CountingDrop(head))
    case CountingDrop(head) =>
      r.(dropped := c.arith.Lane(r.dropped + 1), at := StoringSkip(head))
    case Storing(head, _) => r.(dequeuePos := c.arith.Lane(head + 1), at := Resting)
    case StoringSkip(head) => r.(dequeuePos := c.arith.Lane(head + 1), at := Resting)
    case StoringCatchUp(head) => r.(dequeuePos := head, at := Resting)
  }

  /** What reader r's calls returned, and which tickets it counted as lost. */
  datatype Outcome = Outcome(tickets: seq<int>, frames: seq<Frame>, lost: set<int>)

  /** History no step reads; `pushed[t]` is the frame of ticket t from the moment its slot turns busy. */
  datatype Log = Log(pushed: seq<Frame>, outcomes: seq<Outcome>)

  /** The tickets lo, ..., hi - 1. */
  function Span(lo: int, hi: int): (ts: set<int>)
    ensures forall t :: t in ts <==> lo <= t < hi
    ensures |ts| == if lo < hi then hi - lo else 0
    decreases hi - lo
  {
    if lo >= hi then {} else Span(lo, hi - 1) + {hi - 1}
  }

  function Record(c: Config, m: Machine, l: Log, a: Action): (l': Log)
    requires m.Shaped(c) && |l.outcomes| == c.consumers
    ensures |l'.outcomes| == c.consumers
  {
    match a
    case Push(_) => l
    case Resume =>
      if m.producer.LoadedTicket? then l.(pushed := l.pushed + [m.producer.frame]) else l
    case Pull(r) =>
      if r < c.consumers then
        l.(outcomes := l.outcomes[r := RecordReader(l.outcomes[r], m.readers[r].at)])
      else l
  }

  function RecordReader(o: Outcome, at: Position): Outcome {
    match at
    case CountingLoss(start, target, _) => o.(lost := o.lost + Span(start, target))
    case CountingDrop(head) => o.(lost := o.lost + {head})
    case Storing(head, out) => o.(tickets := o.tickets + [head], frames := o.frames + [out])
    case _ => o
  }

  datatype State = State(m: Machine, l: Log)

  function Next(c: Config, s: State, a: Action): (s': State)
    requires s.m.Shaped(c) && |s.l.outcomes| == c.consumers
    ensures s'.m.Shaped(c) && |s'.l.outcomes| == c.consumers
  {
    State(Step(c, s.m, a), Record(c, s.m, s.l, a))
  }

  /** The state after a run: any number of steps by the producer and the readers, in any order. */
  function Run(c: Config, actions: seq<Action>): (s: State)
    requires c.Valid()
    ensures s.m.Shaped(c) && |s.l.outcomes| == c.consumers
  {
    if actions == [] then
      State(InitLayout(c), Log([], seq(c.consumers, _ => Outcome([], [], {}))))
    else Next(c, Run(c, actions[..|actions| - 1]), actions[|actions| - 1])
  }
}
