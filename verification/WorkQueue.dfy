/** MpmcWorkQueue: many producers, many competing consumers, each frame to exactly one of them. Every
    `Atomics` call and every payload word is one step; any thread may be parked between any two. */
module WorkQueue {
  import opened Tickets

  /** `producerCount` is the declared count; `threads` producers and `consumers` consumers take part. */
  datatype Config = Config(arith: Arithmetic, capacity: nat, producerCount: nat, words: nat,
                           threads: nat, consumers: nat)
  {
    function Slack(): int { producerCount - 1 }

    /** What `validate` lets through; the power-of-two test matters to the wrapped reading only. */
    predicate Valid() {
      capacity >= 2 && producerCount >= 1 && capacity > producerCount - 1
    }
  }

  /** Where a producer stands inside `push`; the first four lie inside `advanceFrontier`. */
  datatype Producer =
    | Idle
    | Scanning(frame: Frame, start: int, f: int, scanned: nat)
    | Rechecking(frame: Frame, f: int)
    | StoringFrontier(frame: Frame, f: int)
    | LoadingTicket(frame: Frame)
    | LoadedTicket(frame: Frame, w: int)
    | Dropping(frame: Frame)
    | Admitted(frame: Frame)
    | Writing(frame: Frame, ticket: int, done: nat)

  /** Where a consumer stands inside `pull` or, for the last two, inside `isDrained`. */
  datatype Position =
    | Resting
    | LoadedHead(r: int)
    | Claiming
    | AtGate
    | Reading(out: Frame)
    | CountingTorn
    | CheckingClosed
    | LoadingFinal
    | CountingStrand
    | DrainClosed
    | DrainTicket(w: int)

  datatype Held = Nothing | Claim(ticket: int)

  /** `drained` remembers that `isDrained` has answered true. */
  datatype Consumer = Consumer(held: Held, drained: bool, at: Position)

  datatype Machine = Machine(
    enqueueTicket: int, dequeueTicket: int, frontier: int,
    droppedFrames: int, strandedClaims: int, tornGuarded: int, closed: bool,
    gen: seq<int>, payload: seq<Frame>,
    producers: seq<Producer>, consumers: seq<Consumer>)
  {
    predicate Shaped(c: Config) {
      && c.Valid()
      && |gen| == |payload| == c.capacity
      && |producers| == c.threads && |consumers| == c.consumers
      && (forall s :: 0 <= s < c.capacity ==> |payload[s]| == c.words)
      && (forall p :: 0 <= p < c.threads && !producers[p].Idle? ==> |producers[p].frame| == c.words)
      && (forall p :: 0 <= p < c.threads && producers[p].Writing? ==> producers[p].done <= c.words)
      && (forall k :: 0 <= k < c.consumers ==> ConsumerShaped(c, consumers[k]))
    }
  }

  predicate HoldsAt(at: Position) {
    at.AtGate? || at.Reading? || at.CountingTorn? || at.CheckingClosed? || at.LoadingFinal? || at.CountingStrand?
  }

  predicate ConsumerShaped(c: Config, k: Consumer) {
    && (k.at.Reading? ==> |k.at.out| <= c.words)
    && (HoldsAt(k.at) ==> k.held.Claim?)
  }

  /** `Push`, `Pull` and `AskDrained` open a call; `Resume` and `Advance` take its next step. */
  datatype Action =
    | Push(p: nat, frame: Frame) | Resume(p: nat)
    | Pull(k: nat) | AskDrained(k: nat) | Advance(k: nat)
    | Close

  function InitLayout(c: Config): (m: Machine)
    requires c.Valid()
    ensures m.Shaped(c)
    ensures forall s :: 0 <= s < c.capacity ==> m.gen[s] == c.arith.Lane(s)
  {
    Machine(0, 0, 0, 0, 0, 0, false,
      seq(c.capacity, s => c.arith.Lane(s)),
      seq(c.capacity, _ => seq(c.words, _ => 0)),
      seq(c.threads, _ => Idle),
      seq(c.consumers, _ => Consumer(Nothing, false, Resting)))
  }

  function Step(c: Config, m: Machine, a: Action): (m': Machine)
    requires m.Shaped(c)
    ensures m'.Shaped(c)
  {
    match a
    case Push(p, frame) =>
      if p < c.threads && m.producers[p].Idle? && |frame| == c.words
      then m.(producers := m.producers[p := Scanning(frame, m.frontier, m.frontier, 0)])
      else m
    case Resume(p) => if p < c.threads then ProducerStep(c, m, p) else m
    case Pull(k) =>
      if k < c.consumers && m.consumers[k].at.Resting? then
        var at := if m.consumers[k].held.Claim? then AtGate else LoadedHead(m.dequeueTicket);
        m.(consumers := m.consumers[k := m.consumers[k].(at := at)])
      else m
    case AskDrained(k) =>
      if k < c.consumers && m.consumers[k].at.Resting? && m.consumers[k].held.Nothing? && m.closed
      then m.(consumers := m.consumers[k := m.consumers[k].(at := DrainClosed)])
      else m
    case Advance(k) => if k < c.consumers then ConsumerStep(c, m, k) else m
    case Close => m.(closed := true)
  }

  function AfterScan(frame: Frame, start: int, f: int): Producer {
    if f == start then LoadingTicket(frame) else Rechecking(frame, f)
  }

  /** The contract of `close` is part of the model: no producer claims a ticket afterwards. */
  function ProducerStep(c: Config, m: Machine, p: nat): (m': Machine)
    requires m.Shaped(c) && p < c.threads
    ensures m'.Shaped(c)
  {
    match m.producers[p]
    case Idle => m
    case Scanning(frame, start, f, scanned) =>
      var freed := scanned < c.capacity
        && c.arith.Diff(m.gen[c.arith.Slot(f, c.capacity)], c.arith.Lane(f + c.capacity)) >= 0;
      var next := if freed then Scanning(frame, start, c.arith.Lane(f + 1), scanned + 1)
                  else AfterScan(frame, start, f);
      m.(producers := m.producers[p := next])
    case Rechecking(frame, f) =>
      var next := if c.arith.Diff(f, m.frontier) > 0 then StoringFrontier(frame, f) else LoadingTicket(frame);
      m.(producers := m.producers[p := next])
    case StoringFrontier(frame, f) =>
      m.(frontier := f, producers := m.producers[p := LoadingTicket(frame)])
    case LoadingTicket(frame) =>
      m.(producers := m.producers[p := LoadedTicket(frame, m.enqueueTicket)])
    case LoadedTicket(frame, w) =>
      var full := c.arith.Diff(w, m.frontier) >= c.capacity - c.Slack();
      m.(producers := m.producers[p := if full then Dropping(frame) else Admitted(frame)])
    case Dropping(_) =>
      m.(droppedFrames := c.arith.Lane(m.droppedFrames + 1), producers := m.producers[p := Idle])
    case Admitted(frame) =>
      if m.closed then m else
      m.(enqueueTicket := c.arith.Lane(m.enqueueTicket + 1),
         producers := m.producers[p := Writing(frame, m.enqueueTicket, 0)])
    case Writing(frame, ticket, k) =>
      var slot := c.arith.Slot(ticket, c.capacity);
      if k < c.words then
        m.(payload := m.payload[slot := m.payload[slot][k := frame[k]]],
           producers := m.producers[p := Writing(frame, ticket, k + 1)])
      else
        m.(gen := m.gen[slot := c.arith.Lane(ticket + 1)], producers := m.producers[p := Idle])
  }

  function Put(c: Config, m: Machine, k: nat, x: Consumer): (m': Machine)
    requires m.Shaped(c) && k < c.consumers && ConsumerShaped(c, x)
    ensures m'.Shaped(c)
  {
    m.(consumers := m.consumers[k := x])
  }

  function ConsumerStep(c: Config, m: Machine, k: nat): (m': Machine)
    requires m.Shaped(c) && k < c.consumers
    ensures m'.Shaped(c)
  {
    var x := m.consumers[k];
    match x.at
    case Resting => m
    case LoadedHead(r) =>
      Put(c, m, k, x.(at := if c.arith.Diff(m.enqueueTicket, r) <= 0 then Resting else Claiming))
    case Claiming =>
      // `pull` takes a negative ticket for "empty".
      var ticket := m.dequeueTicket;
      Put(c, m.(dequeueTicket := c.arith.Lane(ticket + 1)), k,
          if ticket < 0 then x.(at := Resting) else x.(held := Claim(ticket), at := AtGate))
    case AtGate =>
      var d := c.arith.Diff(m.gen[c.arith.Slot(x.held.ticket, c.capacity)], c.arith.Lane(x.held.ticket + 1));
      Put(c, m, k, x.(at := if d == 0 then Reading([]) else if d > 0 then CountingTorn else CheckingClosed))
    case Reading(out) =>
      var slot := c.arith.Slot(x.held.ticket, c.capacity);
      if |out| < c.words then
        Put(c, m, k, x.(at := Reading(out + [m.payload[slot][|out|]])))
      else
        Put(c, m.(gen := m.gen[slot := c.arith.Lane(x.held.ticket + c.capacity)]), k,
            x.(held := Nothing, at := Resting))
    case CountingTorn =>
      Put(c, m.(tornGuarded := c.arith.Lane(m.tornGuarded + 1)), k, x.(held := Nothing, at := Resting))
    case CheckingClosed => Put(c, m, k, x.(at := if m.closed then LoadingFinal else Resting))
    case LoadingFinal =>
      Put(c, m, k, x.(at := if c.arith.Diff(x.held.ticket, m.enqueueTicket) >= 0 then CountingStrand else Resting))
    case CountingStrand =>
      Put(c, m.(strandedClaims := c.arith.Lane(m.strandedClaims + 1)), k, x.(held := Nothing, at := Resting))
    case DrainClosed => Put(c, m, k, x.(at := DrainTicket(m.enqueueTicket)))
    case DrainTicket(w) =>
      Put(c, m, k, x.(at := Resting, drained := x.drained || c.arith.Diff(w, m.dequeueTicket) <= 0))
  }

  /** What consumer k's calls delivered, in order. */
  datatype Outcome = Outcome(tickets: seq<int>, frames: seq<Frame>)

  /** History no step reads: who claimed each enqueue and dequeue ticket, what was pushed under it,
      which tickets were freed (delivered) or given up as stranded, and what the consumers got. */
  datatype Log = Log(frames: seq<Frame>, owners: seq<nat>, claimants: seq<nat>,
                     freed: set<int>, stranded: set<int>, outcomes: seq<Outcome>, attempts: nat)

  function Record(c: Config, m: Machine, l: Log, a: Action): (l': Log)
    requires m.Shaped(c) && |l.outcomes| == c.consumers
    ensures |l'.outcomes| == c.consumers
  {
    match a
    case Push(p, frame) =>
      if p < c.threads && m.producers[p].Idle? && |frame| == c.words
      then l.(attempts := l.attempts + 1) else l
    case Resume(p) =>
      if p < c.threads && m.producers[p].Admitted? && !m.closed
      then l.(frames := l.frames + [m.producers[p].frame], owners := l.owners + [p]) else l
    case Pull(_) => l
    case AskDrained(_) => l
    case Close => l
    case Advance(k) =>
      if k >= c.consumers then l else
      var x := m.consumers[k];
      if x.at.Claiming? then l.(claimants := l.claimants + [k])
      else if x.at.Reading? && |x.at.out| == c.words then
        var o := l.outcomes[k];
        l.(freed := l.freed + {x.held.ticket},
           outcomes := l.outcomes[k := Outcome(o.tickets + [x.held.ticket], o.frames + [x.at.out])])
      else if x.at.CountingStrand? then l.(stranded := l.stranded + {x.held.ticket})
      else l
  }

  datatype State = State(m: Machine, l: Log)

  function Next(c: Config, s: State, a: Action): (s': State)
    requires s.m.Shaped(c) && |s.l.outcomes| == c.consumers
    ensures s'.m.Shaped(c) && |s'.l.outcomes| == c.consumers
  {
    State(Step(c, s.m, a), Record(c, s.m, s.l, a))
  }

  /** The state after a run: any number of steps by any threads in any order. */
  function Run(c: Config, actions: seq<Action>): (s: State)
    requires c.Valid()
    ensures s.m.Shaped(c) && |s.l.outcomes| == c.consumers
  {
    if actions == [] then
      State(InitLayout(c), Log([], [], [], {}, {}, seq(c.consumers, _ => Outcome([], [])), 0))
    else Next(c, Run(c, actions[..|actions| - 1]), actions[|actions| - 1])
  }
}
