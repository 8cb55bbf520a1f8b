/** MpmcRing: many producers, one in-order consumer. Every `Atomics` call and every payload word is
    one step; any thread may be parked between any two of its steps. */
module FanInRing {
  import opened Tickets

  /** `producerCount` is the declared count the constructor takes; `threads` is how many threads push.
      `words` is the length of a frame. */
  datatype Config = Config(arith: Arithmetic, capacity: nat, producerCount: nat, words: nat, threads: nat) {
    function Slack(): int { producerCount - 1 }

    /** What `validate` lets through; the power-of-two test matters to the wrapped reading only. */
    predicate Valid() {
      capacity >= 2 && producerCount >= 1 && capacity > producerCount - 1
    }
  }

  /** Where a producer stands inside `push`. */
  datatype Producer =
    | Idle
    | LoadedTicket(frame: Frame, w: int)
    | Dropping(frame: Frame)
    | Admitted(frame: Frame, w: int)
    | Writing(frame: Frame, ticket: int, done: nat)

  /** Where the consumer stands inside `pull`. */
  datatype Consumer =
    | Resting
    | LoadedHead(head: int)
    | CountingLoss(start: int, target: int, lost: int)
    | AtGate(start: int, head: int)
    | Reading(head: int, out: Frame)
    | CountingOverrun(head: int)
    | CountingTorn(head: int)
    | SkippingHead(head: int)
    | StoringCatchUp(head: int)

  /** The shared buffer and the threads' own variables: all that a step may look at. */
  datatype Machine = Machine(
    enqueueTicket: int, dequeuePos: int, droppedFrames: int, overrunLost: int, tornFrames: int,
    gen: seq<int>, payload: seq<Frame>,
    producers: seq<Producer>, consumer: Consumer)
  {
    predicate Shaped(c: Config) {
      && c.Valid()
      && |gen| == |payload| == c.capacity
      && |producers| == c.threads
      && (forall s :: 0 <= s < c.capacity ==> |payload[s]| == c.words)
      && (forall p :: 0 <= p < c.threads && !producers[p].Idle? ==> |producers[p].frame| == c.words)
      && (forall p :: 0 <= p < c.threads && producers[p].Writing? ==> producers[p].done <= c.words)
      && (consumer.Reading? ==> |consumer.out| <= c.words)
    }
  }

  /** One scheduling choice: a thread takes its next step. `Push` opens a call and does its first load. */
  datatype Action = Push(p: nat, frame: Frame) | Resume(p: nat) | Pull

  function InitLayout(c: Config): (m: Machine)
    requires c.Valid()
    ensures m.Shaped(c)
    ensures forall s :: 0 <= s < c.capacity ==> m.gen[s] == c.arith.Lane(s - c.capacity)
  {
    Machine(0, 0, 0, 0, 0,
      seq(c.capacity, s => c.arith.Lane(s - c.capacity)),
      seq(c.capacity, _ => seq(c.words, _ => 0)),
      seq(c.threads, _ => Idle), Resting)
  }

  function Step(c: Config, m: Machine, a: Action): (m': Machine)
    requires m.Shaped(c)
    ensures m'.Shaped(c)
  {
    match a
    case Push(p, frame) =>
      if p < c.threads && m.producers[p].Idle? && |frame| == c.words then
        m.(producers := m.producers[p := LoadedTicket(frame, m.enqueueTicket)])
      else m
    case Resume(p) => if p < c.threads then ProducerStep(c, m, p) else m
    case Pull => ConsumerStep(c, m)
  }

  function ProducerStep(c: Config, m: Machine, p: nat): (m': Machine)
    requires m.Shaped(c) && p < c.threads
    ensures m'.Shaped(c)
  {
    match m.producers[p]
    case Idle => m
    case LoadedTicket(frame, w) =>
      var full := c.arith.Diff(w, m.dequeuePos) >= c.capacity - c.Slack();
      m.(producers := m.producers[p := if full then Dropping(frame) else Admitted(frame, w)])
    case Dropping(_) =>
      m.(droppedFrames := c.arith.Lane(m.droppedFrames + 1), producers := m.producers[p := Idle])
    case Admitted(frame, _) =>
      m.(enqueueTicket := c.arith.Lane(m.enqueueTicket + 1),
         producers := m.producers[p := Writing(frame, m.enqueueTicket, 0)])
    case Writing(frame, ticket, k) =>
      var slot := c.arith.Slot(ticket, c.capacity);
      if k < c.words then
        m.(payload := m.payload[slot := m.payload[slot][k := frame[k]]],
           producers := m.producers[p := Writing(frame, ticket, k + 1)])
      else
        m.(gen := m.gen[slot := c.arith.Lane(ticket)], producers := m.producers[p := Idle])
  }

  function ConsumerStep(c: Config, m: Machine): (m': Machine)
    requires m.Shaped(c)
    ensures m'.Shaped(c)
  {
    match m.consumer
    case Resting => m.(consumer := LoadedHead(m.dequeuePos))
    case LoadedHead(head) =>
      var w := m.enqueueTicket;
      if c.arith.Diff(w, head) > c.capacity then
        var target := c.arith.Lane(w - c.capacity);
        m.(consumer := CountingLoss(head, target, c.arith.Diff(target, head)))
      else
        m.(consumer := AtGate(head, head))
    case CountingLoss(start, target, lost) =>
      m.(overrunLost := if lost > 0 then c.arith.Lane(m.overrunLost + lost) else m.overrunLost,
         consumer := AtGate(start, target))
    case AtGate(start, head) =>
      var d := c.arith.Diff(m.gen[c.arith.Slot(head, c.capacity)], head);
      if d == 0 then m.(consumer := Reading(head, []))
      else if d > 0 then m.(consumer := CountingOverrun(head))
      else if head != start then m.(consumer := StoringCatchUp(head))
      else m.(consumer := Resting)
    case Reading(head, out) =>
      if |out| < c.words then
        m.(consumer := Reading(head, out + [m.payload[c.arith.Slot(head, c.capacity)][|out|]]))
      else
        m.(dequeuePos := c.arith.Lane(head + 1), consumer := Resting)
    case CountingOverrun(head) =>
      m.(overrunLost := c.arith.Lane(m.overrunLost + 1), consumer := CountingTorn(head))
    case CountingTorn(head) =>
      m.(tornFrames := c.arith.Lane(m.tornFrames + 1), consumer := SkippingHead(head))
    case SkippingHead(head) =>
      m.(dequeuePos := c.arith.Lane(head + 1), consumer := Resting)
    case StoringCatchUp(head) =>
      m.(dequeuePos := head, consumer := Resting)
  }

  /** History no step reads: what was pushed under each ticket and by whom, what `pull` returned. */
  datatype Log = Log(frames: seq<Frame>, owners: seq<nat>, delivered: seq<Frame>, attempts: nat)

  function Record(c: Config, m: Machine, l: Log, a: Action): Log
    requires m.Shaped(c)
  {
    match a
    case Push(p, frame) =>
      if p < c.threads && m.producers[p].Idle? && |frame| == c.words
      then l.(attempts := l.attempts + 1) else l
    case Resume(p) =>
      if p < c.threads && m.producers[p].Admitted?
      then l.(frames := l.frames + [m.producers[p].frame], owners := l.owners + [p]) else l
    case Pull =>
      if m.consumer.Reading? && |m.consumer.out| == c.words
      then l.(delivered := l.delivered + [m.consumer.out]) else l
  }

  datatype State = State(m: Machine, l: Log)

  /** The state after a run: any number of steps by any threads in any order. */
  function Run(c: Config, actions: seq<Action>): (s: State)
    requires c.Valid()
    ensures s.m.Shaped(c)
  {
    if actions == [] then State(InitLayout(c), Log([], [], [], 0))
    else
      var s := Run(c, actions[..|actions| - 1]);
      var a := actions[|actions| - 1];
      State(Step(c, s.m, a), Record(c, s.m, s.l, a))
  }
}
