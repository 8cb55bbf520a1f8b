/** What one `push` and one `pull` of MpmcWorkQueue do when no other thread moves meanwhile, from any state of any
    run. */
module WorkQueueSolo {
  import opened Tickets
  import opened WorkQueue
  import opened WorkQueueInvariant
  import opened WorkQueueSafety
  import opened Polling

  /** A step of one thread, as a function of the state. */
  function Stepping(c: Config, a: Action): State -> State {
    (s: State) => if s.m.Shaped(c) && |s.l.outcomes| == c.consumers then Next(c, s, a) else s
  }

  function Times(a: Action, n: nat): (actions: seq<Action>)
    ensures |actions| == n && forall i :: 0 <= i < n ==> actions[i] == a
  {
    seq(n, _ => a)
  }

  /** A call: its opening step, and n more. */
  function CallSteps(open: Action, a: Action, n: nat): seq<Action> {
    [open] + Times(a, n)
  }

  lemma {:induction false} LastStep(c: Config, actions: seq<Action>, a: Action)
    requires c.Valid()
    ensures Run(c, actions + [a]) == Next(c, Run(c, actions), a)
  {
    assert (actions + [a])[..|actions|] == actions;
  }

  lemma {:induction false} LastOfTimes(c: Config, actions: seq<Action>, a: Action, n: nat)
    requires c.Valid()
    ensures Run(c, actions + Times(a, n + 1)) == Next(c, Run(c, actions + Times(a, n)), a)
  {
    assert (actions + Times(a, n + 1))[..|actions| + n] == actions + Times(a, n);
  }

  lemma {:induction false} RunTimes(c: Config, actions: seq<Action>, a: Action, n: nat)
    requires c.Valid()
    ensures Run(c, actions + Times(a, n)) == Iterate(Stepping(c, a), Run(c, actions), n)
    decreases n
  {
    if n == 0 {
      assert actions + Times(a, 0) == actions;
    } else {
      RunTimes(c, actions, a, n - 1);
      LastOfTimes(c, actions, a, n - 1);
    }
  }

  lemma {:induction false} RunCall(c: Config, actions: seq<Action>, open: Action, a: Action, n: nat)
    requires c.Valid()
    ensures Run(c, actions + CallSteps(open, a, n))
         == Iterate(Stepping(c, a), Next(c, Run(c, actions), open), n)
  {
    LastStep(c, actions, open);
    RunTimes(c, actions + [open], a, n);
    assert actions + CallSteps(open, a, n) == (actions + [open]) + Times(a, n);
  }

  /** n steps a lead from s to t. */
  ghost predicate Goes(c: Config, a: Action, s: State, n: nat, t: State) {
    Iterate(Stepping(c, a), s, n) == t
  }

  lemma Stays(c: Config, a: Action, s: State)
    ensures Goes(c, a, s, 0, s)
  {
  }

  lemma StepThen(c: Config, a: Action, now: State, next: State, n: nat, end: State)
    requires now.m.Shaped(c) && |now.l.outcomes| == c.consumers && next == Next(c, now, a)
    requires Goes(c, a, next, n, end)
    ensures Goes(c, a, now, n + 1, end)
  {
    assert Iterate(Stepping(c, a), now, 0) == now && Iterate(Stepping(c, a), now, 1) == next;
    Joins(Stepping(c, a), now, 1, n);
  }

  lemma LastStepTo(c: Config, a: Action, now: State, end: State)
    requires now.m.Shaped(c) && |now.l.outcomes| == c.consumers && end == Next(c, now, a)
    ensures Goes(c, a, now, 1, end)
  {
    Stays(c, a, end);
    StepThen(c, a, now, end, 0, end);
  }

  lemma Chained(c: Config, a: Action, s: State, m: nat, mid: State, n: nat, total: nat, end: State)
    requires Goes(c, a, s, m, mid) && Goes(c, a, mid, n, end) && total == m + n
    ensures Goes(c, a, s, total, end)
  {
    Joins(Stepping(c, a), s, m, n);
  }

  // `push`

  function At(s: State, p: nat, at: Producer): State
    requires p < |s.m.producers|
  {
    s.(m := s.m.(producers := s.m.producers[p := at]))
  }

  /** The ticket that the scan gets to: the first one not delivered, at most `capacity` tickets past the lane. */
  ghost predicate Reached(c: Config, s: State, reach: int) {
    && s.m.frontier <= reach <= s.m.frontier + c.capacity
    && (forall t :: s.m.frontier <= t < reach ==> t in s.l.freed)
    && (reach < s.m.frontier + c.capacity ==> reach !in s.l.freed)
  }

  ghost predicate Open(c: Config, s: State, p: nat, frame: Frame) {
    Inv(c, s) && !s.m.closed && p < c.threads && s.m.producers[p].Idle? && |frame| == c.words
  }

  lemma {:induction false} ScanStep(c: Config, s: State, p: nat, frame: Frame, j: nat)
    requires Open(c, s, p, frame) && j <= c.capacity
    requires forall t :: s.m.frontier <= t < s.m.frontier + j ==> t in s.l.freed
    ensures var f := s.m.frontier + j; var now := At(s, p, Scanning(frame, s.m.frontier, f, j));
      now.m.Shaped(c) && Next(c, now, Resume(p))
      == At(s, p, if j < c.capacity && f in s.l.freed then Scanning(frame, s.m.frontier, f + 1, j + 1)
                  else AfterScan(frame, s.m.frontier, f))
  {
    ScanExact(c, s, s.m.frontier + j);
  }

  function ScanningAt(s: State, p: nat, frame: Frame, j: nat): State
    requires p < |s.m.producers|
  {
    At(s, p, Scanning(frame, s.m.frontier, s.m.frontier + j, j))
  }

  lemma {:induction false} ScanOn(c: Config, s: State, p: nat, frame: Frame, j: nat, n: nat, end: State)
    requires Open(c, s, p, frame) && j < c.capacity && s.m.frontier + j in s.l.freed
    requires forall t :: s.m.frontier <= t < s.m.frontier + j ==> t in s.l.freed
    requires Goes(c, Resume(p), ScanningAt(s, p, frame, j + 1), n, end)
    ensures Goes(c, Resume(p), ScanningAt(s, p, frame, j), n + 1, end)
  {
    ScanStep(c, s, p, frame, j);
    StepThen(c, Resume(p), ScanningAt(s, p, frame, j), ScanningAt(s, p, frame, j + 1), n, end);
  }

  lemma {:induction false} ScanEnds(c: Config, s: State, p: nat, frame: Frame, j: nat)
    requires Open(c, s, p, frame) && (j == c.capacity || (j < c.capacity && s.m.frontier + j !in s.l.freed))
    requires forall t :: s.m.frontier <= t < s.m.frontier + j ==> t in s.l.freed
    ensures Goes(c, Resume(p), ScanningAt(s, p, frame, j), 1,
                 At(s, p, AfterScan(frame, s.m.frontier, s.m.frontier + j)))
  {
    ScanStep(c, s, p, frame, j);
    LastStepTo(c, Resume(p), ScanningAt(s, p, frame, j), At(s, p, AfterScan(frame, s.m.frontier, s.m.frontier + j)));
  }

  /** How many tickets the scan passes from its j-th on, counting the first j. */
  ghost function Passes(c: Config, s: State, j: nat): (n: nat)
    requires j <= c.capacity
    ensures j <= n <= c.capacity && (n < c.capacity ==> s.m.frontier + n !in s.l.freed)
    ensures forall t :: s.m.frontier + j <= t < s.m.frontier + n ==> t in s.l.freed
    decreases c.capacity - j
  {
    if j < c.capacity && s.m.frontier + j in s.l.freed then Passes(c, s, j + 1) else j
  }

  /** The scan passes r tickets and no more. */
  ghost predicate PassesJust(c: Config, s: State, r: nat) {
    && r <= c.capacity && (r < c.capacity ==> s.m.frontier + r !in s.l.freed)
    && forall t :: s.m.frontier <= t < s.m.frontier + r ==> t in s.l.freed
  }

  /** The scan, with j tickets to go. */
  lemma {:induction false} ScanAlone(c: Config, s: State, p: nat, frame: Frame, r: nat, j: nat)
    requires Open(c, s, p, frame) && PassesJust(c, s, r) && j <= r
    ensures Goes(c, Resume(p), ScanningAt(s, p, frame, r - j), j + 1,
                 At(s, p, AfterScan(frame, s.m.frontier, s.m.frontier + r)))
    decreases j
  {
    if j == 0 {
      ScanEnds(c, s, p, frame, r);
    } else {
      ScanAlone(c, s, p, frame, r, j - 1);
      ScanOn(c, s, p, frame, r - j, j, At(s, p, AfterScan(frame, s.m.frontier, s.m.frontier + r)));
    }
  }

  function Advanced(s: State, reach: int): State {
    s.(m := s.m.(frontier := reach))
  }

  lemma {:induction false} FrontierStep(c: Config, s: State, p: nat, frame: Frame, reach: int) returns (n: nat)
    requires Open(c, s, p, frame) && Reached(c, s, reach)
    ensures Goes(c, Resume(p), At(s, p, AfterScan(frame, s.m.frontier, reach)), n,
                 At(Advanced(s, reach), p, LoadingTicket(frame)))
  {
    var a, s0 := Resume(p), At(s, p, AfterScan(frame, s.m.frontier, reach));
    if reach == s.m.frontier {
      Stays(c, a, s0);
      n := 0;
    } else {
      var s1, s2 := At(s, p, StoringFrontier(frame, reach)), At(Advanced(s, reach), p, LoadingTicket(frame));
      assert s.m.producers[p := Rechecking(frame, reach)][p := StoringFrontier(frame, reach)]
          == s.m.producers[p := StoringFrontier(frame, reach)];
      assert s.m.producers[p := StoringFrontier(frame, reach)][p := LoadingTicket(frame)]
          == s.m.producers[p := LoadingTicket(frame)];
      LastStepTo(c, a, s1, s2);
      StepThen(c, a, s0, s1, 1, s2);
      n := 2;
    }
  }

  // After the frontier: the check, the claim, the payload and the stamp

  /** The producer is idle in s but for its place in the call. */
  ghost predicate Calling(c: Config, s: State, p: nat, frame: Frame) {
    && s.m.Shaped(c) && |s.l.outcomes| == c.consumers && !s.m.closed
    && p < c.threads && s.m.producers[p].Idle? && |frame| == c.words
  }

  predicate Room(c: Config, m: Machine) {
    c.arith.Diff(m.enqueueTicket, m.frontier) < c.capacity - c.Slack()
  }

  lemma Checks(c: Config, s: State, p: nat, frame: Frame)
    requires Calling(c, s, p, frame)
    ensures var s0 := At(s, p, LoadingTicket(frame)); var s1 := At(s, p, LoadedTicket(frame, s.m.enqueueTicket));
      && s0.m.Shaped(c) && Next(c, s0, Resume(p)) == s1 && s1.m.Shaped(c)
      && Next(c, s1, Resume(p)) == At(s, p, if Room(c, s.m) then Admitted(frame) else Dropping(frame))
  {
    assert s.m.producers[p := LoadingTicket(frame)][p := LoadedTicket(frame, s.m.enqueueTicket)]
        == s.m.producers[p := LoadedTicket(frame, s.m.enqueueTicket)];
  }

  function Claimed(c: Config, s: State, p: nat, frame: Frame, k: nat): State
    requires s.m.Shaped(c) && k <= c.words == |frame| && p < c.threads
  {
    var slot := c.arith.Slot(s.m.enqueueTicket, c.capacity);
    State(s.m.(enqueueTicket := c.arith.Lane(s.m.enqueueTicket + 1),
               payload := s.m.payload[slot := frame[..k] + s.m.payload[slot][k..]],
               producers := s.m.producers[p := Writing(frame, s.m.enqueueTicket, k)]),
          s.l.(frames := s.l.frames + [frame], owners := s.l.owners + [p]))
  }

  function PublishedAs(c: Config, s: State, p: nat, frame: Frame): State
    requires s.m.Shaped(c)
  {
    var slot := c.arith.Slot(s.m.enqueueTicket, c.capacity);
    State(s.m.(enqueueTicket := c.arith.Lane(s.m.enqueueTicket + 1), payload := s.m.payload[slot := frame],
               gen := s.m.gen[slot := c.arith.Lane(s.m.enqueueTicket + 1)]),
          s.l.(frames := s.l.frames + [frame], owners := s.l.owners + [p]))
  }

  lemma Claims(c: Config, s: State, p: nat, frame: Frame)
    requires Calling(c, s, p, frame)
    ensures At(s, p, Admitted(frame)).m.Shaped(c)
    ensures Next(c, At(s, p, Admitted(frame)), Resume(p)) == Claimed(c, s, p, frame, 0)
  {
    var slot := c.arith.Slot(s.m.enqueueTicket, c.capacity);
    assert frame[..0] + s.m.payload[slot][0..] == s.m.payload[slot];
  }

  lemma Refused(c: Config, s: State, p: nat, frame: Frame)
    requires Calling(c, s, p, frame)
    ensures At(s, p, Dropping(frame)).m.Shaped(c)
    ensures Next(c, At(s, p, Dropping(frame)), Resume(p))
         == s.(m := s.m.(droppedFrames := c.arith.Lane(s.m.droppedFrames + 1)))
  {
    assert s.m.producers[p := Dropping(frame)][p := Idle] == s.m.producers;
  }

  lemma {:induction false} WriteStep(c: Config, s: State, p: nat, frame: Frame, k: nat)
    requires Calling(c, s, p, frame) && k < c.words
    ensures Claimed(c, s, p, frame, k).m.Shaped(c)
    ensures Next(c, Claimed(c, s, p, frame, k), Resume(p)) == Claimed(c, s, p, frame, k + 1)
  {
    var slot := c.arith.Slot(s.m.enqueueTicket, c.capacity);
    var row := frame[..k] + s.m.payload[slot][k..];
    assert row[k := frame[k]] == frame[..k + 1] + s.m.payload[slot][k + 1..];
  }

  lemma Publishes(c: Config, s: State, p: nat, frame: Frame)
    requires Calling(c, s, p, frame)
    ensures Claimed(c, s, p, frame, c.words).m.Shaped(c)
    ensures Next(c, Claimed(c, s, p, frame, c.words), Resume(p)) == PublishedAs(c, s, p, frame)
  {
    var slot := c.arith.Slot(s.m.enqueueTicket, c.capacity);
    assert frame[..c.words] + s.m.payload[slot][c.words..] == frame;
    assert s.m.producers[p := Writing(frame, s.m.enqueueTicket, c.words)][p := Idle] == s.m.producers;
  }

  lemma {:induction false} WriteAlone(c: Config, s: State, p: nat, frame: Frame, k: nat)
    requires Calling(c, s, p, frame) && k <= c.words
    ensures Goes(c, Resume(p), Claimed(c, s, p, frame, k), c.words - k + 1, PublishedAs(c, s, p, frame))
    decreases c.words - k
  {
    var a, now, end := Resume(p), Claimed(c, s, p, frame, k), PublishedAs(c, s, p, frame);
    if k < c.words {
      WriteStep(c, s, p, frame, k);
      WriteAlone(c, s, p, frame, k + 1);
      StepThen(c, a, now, Claimed(c, s, p, frame, k + 1), c.words - k, end);
    } else {
      Publishes(c, s, p, frame);
      LastStepTo(c, a, now, end);
    }
  }

  /** The rest of the call, from the load of the ticket on. */
  lemma {:induction false} Decided(c: Config, s: State, p: nat, frame: Frame) returns (n: nat)
    requires Calling(c, s, p, frame)
    ensures Goes(c, Resume(p), At(s, p, LoadingTicket(frame)), n,
                 if Room(c, s.m) then PublishedAs(c, s, p, frame)
                 else s.(m := s.m.(droppedFrames := c.arith.Lane(s.m.droppedFrames + 1))))
  {
    var a, s0, s1 := Resume(p), At(s, p, LoadingTicket(frame)), At(s, p, LoadedTicket(frame, s.m.enqueueTicket));
    Checks(c, s, p, frame);
    if Room(c, s.m) {
      var s2 := At(s, p, Admitted(frame));
      Claims(c, s, p, frame);
      WriteAlone(c, s, p, frame, 0);
      StepThen(c, a, s2, Claimed(c, s, p, frame, 0), c.words + 1, PublishedAs(c, s, p, frame));
      StepThen(c, a, s1, s2, c.words + 2, PublishedAs(c, s, p, frame));
      StepThen(c, a, s0, s1, c.words + 3, PublishedAs(c, s, p, frame));
      n := c.words + 4;
    } else {
      var s2, end := At(s, p, Dropping(frame)), s.(m := s.m.(droppedFrames := c.arith.Lane(s.m.droppedFrames + 1)));
      Refused(c, s, p, frame);
      LastStepTo(c, a, s2, end);
      StepThen(c, a, s1, s2, 1, end);
      StepThen(c, a, s0, s1, 2, end);
      n := 3;
    }
  }

  /** What an undisturbed push leaves: the lane moved to the ticket that the scan got to; and its frame under the next
      ticket, whole and stamped, if that leaves room, else one more drop. */
  ghost predicate PushLeaves(c: Config, s: State, p: nat, frame: Frame, s': State, reach: int)
    requires s.m.Shaped(c)
  {
    var slot, t := c.arith.Slot(s.m.enqueueTicket, c.capacity), s.m.enqueueTicket;
    && Reached(c, s, reach) && s'.l.attempts == s.l.attempts + 1 && s'.l.outcomes == s.l.outcomes
    && if t - reach < c.capacity - (c.producerCount - 1) then
         && s'.m == s.m.(frontier := reach, enqueueTicket := t + 1, payload := s.m.payload[slot := frame],
                         gen := s.m.gen[slot := t + 1])
         && s'.l.frames == s.l.frames + [frame] && s'.l.owners == s.l.owners + [p]
       else s'.m == s.m.(frontier := reach, droppedFrames := s.m.droppedFrames + 1) && s'.l.frames == s.l.frames
  }

  function EndOf(c: Config, t: State, p: nat, frame: Frame, reach: int): State
    requires t.m.Shaped(c)
  {
    var u := Advanced(t, reach);
    if Room(c, u.m) then PublishedAs(c, u, p, frame)
    else u.(m := u.m.(droppedFrames := c.arith.Lane(u.m.droppedFrames + 1)))
  }

  lemma EndLeaves(c: Config, s: State, p: nat, frame: Frame, reach: int)
    requires s.m.Shaped(c) && c.arith.Unbounded? && Reached(c, s, reach)
    ensures PushLeaves(c, s, p, frame, EndOf(c, s.(l := s.l.(attempts := s.l.attempts + 1)), p, frame, reach), reach)
  {
  }

  lemma {:induction false} AfterScanToEnd(c: Config, t: State, p: nat, frame: Frame, reach: int, s1: State, end: State)
    returns (n: nat)
    requires Open(c, t, p, frame) && Reached(c, t, reach)
    requires s1 == At(t, p, AfterScan(frame, t.m.frontier, reach)) && end == EndOf(c, t, p, frame, reach)
    ensures Goes(c, Resume(p), s1, n, end)
  {
    var n1 := FrontierStep(c, t, p, frame, reach);
    var n2 := Decided(c, Advanced(t, reach), p, frame);
    n := n1 + n2;
    Chained(c, Resume(p), s1, n1, At(Advanced(t, reach), p, LoadingTicket(frame)), n2, n, end);
  }

  /** The call from its opened scan on. */
  lemma {:induction false} ScanToEnd(c: Config, t: State, p: nat, frame: Frame, s0: State)
    returns (n: nat, reach: int, end: State)
    requires Open(c, t, p, frame) && s0 == At(t, p, Scanning(frame, t.m.frontier, t.m.frontier + 0, 0))
    ensures Reached(c, t, reach) && end == EndOf(c, t, p, frame, reach) && Goes(c, Resume(p), s0, n, end)
  {
    var r := Passes(c, t, 0);
    reach := t.m.frontier + r;
    var s1 := At(t, p, AfterScan(frame, t.m.frontier, reach));
    var n0 := r + 1;
    ScanAlone(c, t, p, frame, r, r);
    end := EndOf(c, t, p, frame, reach);
    var n1 := AfterScanToEnd(c, t, p, frame, reach, s1, end);
    n := n0 + n1;
    Chained(c, Resume(p), s0, n0, s1, n1, n, end);
  }

  lemma {:induction false} PushGoes(c: Config, s: State, p: nat, frame: Frame)
    returns (n: nat, reach: int, s': State)
    requires Open(c, s, p, frame)
    ensures Goes(c, Resume(p), Next(c, s, Push(p, frame)), n, s') && PushLeaves(c, s, p, frame, s', reach)
  {
    var t := s.(l := s.l.(attempts := s.l.attempts + 1));
    SameTicketsOpen(c, s, t, p, frame);
    n, reach, s' := ScanToEnd(c, t, p, frame, Next(c, s, Push(p, frame)));
    EndLeaves(c, s, p, frame, reach);
  }

  /** A count of attempts says nothing to the invariant. */
  lemma {:induction false} SameTicketsOpen(c: Config, s: State, t: State, p: nat, frame: Frame)
    requires Open(c, s, p, frame) && t == s.(l := s.l.(attempts := t.l.attempts))
    ensures Open(c, t, p, frame)
  {
    forall q: nat | q < c.threads ensures ProducerOk(c, t, q) {
      assert ProducerOk(c, s, q);
    }
    forall u | s.m.enqueueTicket - c.capacity <= u < s.m.enqueueTicket ensures SlotOk(c, t, u) {
      assert SlotOk(c, s, u);
    }
    forall k: nat | k < c.consumers ensures ConsumerOk(c, t, k) {
      assert ConsumerOk(c, s, k);
    }
    forall d | 0 <= d < s.m.dequeueTicket ensures ClaimCovered(c, t, d) {
      assert ClaimCovered(c, s, d);
    }
  }

  /** From any state of any run of an open stream, an undisturbed `push` is admitted exactly if fewer than
      capacity - (producerCount - 1) tickets lie between the first one not delivered, as far as its scan gets, and the
      next one; and then it publishes exactly its frame. */
  lemma {:induction false} PushAlone(c: Config, actions: seq<Action>, p: nat, frame: Frame) returns (n: nat, reach: int)
    requires c.Valid() && c.arith.Unbounded? && c.threads <= c.producerCount && |frame| == c.words
    requires p < c.threads && Run(c, actions).m.producers[p].Idle? && !Run(c, actions).m.closed
    ensures PushLeaves(c, Run(c, actions), p, frame,
                       Run(c, actions + CallSteps(Push(p, frame), Resume(p), n)), reach)
  {
    RunKeeps(c, actions);
    var s';
    n, reach, s' := PushGoes(c, Run(c, actions), p, frame);
    RunCall(c, actions, Push(p, frame), Resume(p), n);
  }

  // `pull`

  function Put1(s: State, k: nat, x: Consumer): State
    requires k < |s.m.consumers|
  {
    s.(m := s.m.(consumers := s.m.consumers[k := x]))
  }

  /** Consumer k between two of its calls. */
  ghost predicate Asking(c: Config, s: State, k: nat) {
    Inv(c, s) && k < c.consumers && s.m.consumers[k].at.Resting?
  }

  /** Consumer k at the gate with its claim of ticket d. */
  ghost predicate Gated(c: Config, s: State, k: nat, d: int) {
    Inv(c, s) && k < c.consumers && s.m.consumers[k].at.AtGate? && s.m.consumers[k].held == Claim(d)
  }

  /** The frame handed out and its slot freed. */
  function Delivered(c: Config, s: State, k: nat, d: int): State
    requires s.m.Shaped(c) && k < c.consumers && k < |s.l.outcomes| && 0 <= d < |s.l.frames|
  {
    var o := s.l.outcomes[k];
    State(s.m.(gen := s.m.gen[c.arith.Slot(d, c.capacity) := c.arith.Lane(d + c.capacity)],
               consumers := s.m.consumers[k := s.m.consumers[k].(held := Nothing, at := Resting)]),
          s.l.(freed := s.l.freed + {d},
               outcomes := s.l.outcomes[k := Outcome(o.tickets + [d], o.frames + [s.l.frames[d]])]))
  }

  function Stranded(c: Config, s: State, k: nat, d: int): State
    requires k < |s.m.consumers|
  {
    State(s.m.(strandedClaims := c.arith.Lane(s.m.strandedClaims + 1),
               consumers := s.m.consumers[k := s.m.consumers[k].(held := Nothing, at := Resting)]),
          s.l.(stranded := s.l.stranded + {d}))
  }

  /** What a reader of ticket d finds. */
  ghost predicate Readable(c: Config, s: State, k: nat, d: int) {
    && s.m.Shaped(c) && |s.l.outcomes| == c.consumers && k < c.consumers
    && s.m.consumers[k].held == Claim(d) && 0 <= d < |s.l.frames| && |s.l.frames[d]| == c.words
    && s.m.payload[c.arith.Slot(d, c.capacity)] == s.l.frames[d]
  }

  lemma {:induction false} GateReadable(c: Config, s: State, k: nat, d: int)
    requires Gated(c, s, k, d) && Published(c, s, d)
    ensures Readable(c, s, k, d)
  {
    LiveWindow(c, s, d);
  }

  function ReadingAt(s: State, k: nat, d: int, j: nat): State
    requires k < |s.m.consumers| && 0 <= d < |s.l.frames| && j <= |s.l.frames[d]|
  {
    Put1(s, k, s.m.consumers[k].(at := Reading(s.l.frames[d][..j])))
  }

  lemma {:induction false} ReadStep(c: Config, s: State, k: nat, d: int, j: nat)
    requires Readable(c, s, k, d) && j <= c.words
    ensures ReadingAt(s, k, d, j).m.Shaped(c)
    ensures Next(c, ReadingAt(s, k, d, j), Advance(k))
         == if j < c.words then ReadingAt(s, k, d, j + 1) else Delivered(c, s, k, d)
  {
    var frame, x, xs := s.l.frames[d], s.m.consumers[k], s.m.consumers;
    if j < c.words {
      assert frame[..j + 1] == frame[..j] + [frame[j]];
      var y := x.(at := Reading(frame[..j + 1]));
      assert xs[k := x.(at := Reading(frame[..j]))][k := y] == xs[k := y];
    } else {
      assert frame[..j] == frame;
      var y := x.(held := Nothing, at := Resting);
      assert xs[k := x.(at := Reading(frame[..j]))][k := y] == xs[k := y];
    }
  }

  lemma {:induction false} ReadAlone(c: Config, s: State, k: nat, d: int, j: nat)
    requires Readable(c, s, k, d) && j <= c.words
    ensures Goes(c, Advance(k), ReadingAt(s, k, d, j), c.words - j + 1, Delivered(c, s, k, d))
    decreases c.words - j
  {
    ReadStep(c, s, k, d, j);
    if j < c.words {
      ReadAlone(c, s, k, d, j + 1);
      StepThen(c, Advance(k), ReadingAt(s, k, d, j), ReadingAt(s, k, d, j + 1), c.words - j, Delivered(c, s, k, d));
    } else {
      LastStepTo(c, Advance(k), ReadingAt(s, k, d, j), Delivered(c, s, k, d));
    }
  }

  /** What becomes of a claim. */
  ghost function Settled(c: Config, s: State, k: nat, d: int): State
    requires s.m.Shaped(c) && |s.l.outcomes| == c.consumers && k < c.consumers
  {
    if Published(c, s, d) && d < |s.l.frames| then Delivered(c, s, k, d)
    else if s.m.closed && d >= s.m.enqueueTicket then Stranded(c, s, k, d)
    else Put1(s, k, s.m.consumers[k].(at := Resting))
  }

  lemma Reput(s: State, k: nat, x: Consumer, y: Consumer)
    requires k < |s.m.consumers|
    ensures Put1(Put1(s, k, x), k, y) == Put1(s, k, y)
  {
    assert s.m.consumers[k := x][k := y] == s.m.consumers[k := y];
  }

  /** Past a gate that stayed shut. */
  lemma {:induction false} ShutAlone(c: Config, s: State, k: nat, d: int) returns (n: nat)
    requires s.m.Shaped(c) && |s.l.outcomes| == c.consumers && k < c.consumers && c.arith.Unbounded?
    requires s.m.consumers[k].held == Claim(d)
    ensures Goes(c, Advance(k), Put1(s, k, s.m.consumers[k].(at := CheckingClosed)), n,
                 if s.m.closed && d >= s.m.enqueueTicket then Stranded(c, s, k, d)
                 else Put1(s, k, s.m.consumers[k].(at := Resting)))
  {
    if s.m.closed {
      n := ClosedAlone(c, s, k, d);
      var end := if d >= s.m.enqueueTicket then Stranded(c, s, k, d)
                 else Put1(s, k, s.m.consumers[k].(at := Resting));
      FinalCheck(c, s, k, n, end);
      n := n + 1;
    } else {
      OpenAlone(c, s, k);
      n := 1;
    }
  }

  lemma {:induction false} OpenAlone(c: Config, s: State, k: nat)
    requires s.m.Shaped(c) && |s.l.outcomes| == c.consumers && k < c.consumers && s.m.consumers[k].held.Claim?
    requires !s.m.closed
    ensures var x := s.m.consumers[k];
      Goes(c, Advance(k), Put1(s, k, x.(at := CheckingClosed)), 1, Put1(s, k, x.(at := Resting)))
  {
    var x := s.m.consumers[k];
    Reput(s, k, x.(at := CheckingClosed), x.(at := Resting));
    LastStepTo(c, Advance(k), Put1(s, k, x.(at := CheckingClosed)), Put1(s, k, x.(at := Resting)));
  }

  lemma {:induction false} FinalCheck(c: Config, s: State, k: nat, n: nat, end: State)
    requires s.m.Shaped(c) && |s.l.outcomes| == c.consumers && k < c.consumers && s.m.consumers[k].held.Claim?
    requires s.m.closed && Goes(c, Advance(k), Put1(s, k, s.m.consumers[k].(at := LoadingFinal)), n, end)
    ensures Goes(c, Advance(k), Put1(s, k, s.m.consumers[k].(at := CheckingClosed)), n + 1, end)
  {
    var x := s.m.consumers[k];
    Reput(s, k, x.(at := CheckingClosed), x.(at := LoadingFinal));
    StepThen(c, Advance(k), Put1(s, k, x.(at := CheckingClosed)), Put1(s, k, x.(at := LoadingFinal)), n, end);
  }

  lemma {:induction false} ClosedAlone(c: Config, s: State, k: nat, d: int) returns (n: nat)
    requires s.m.Shaped(c) && |s.l.outcomes| == c.consumers && k < c.consumers && c.arith.Unbounded?
    requires s.m.consumers[k].held == Claim(d)
    ensures Goes(c, Advance(k), Put1(s, k, s.m.consumers[k].(at := LoadingFinal)), n,
                 if d >= s.m.enqueueTicket then Stranded(c, s, k, d) else Put1(s, k, s.m.consumers[k].(at := Resting)))
  {
    var a, x := Advance(k), s.m.consumers[k];
    var s1 := Put1(s, k, x.(at := LoadingFinal));
    if d < s.m.enqueueTicket {
      Reput(s, k, x.(at := LoadingFinal), x.(at := Resting));
      LastStepTo(c, a, s1, Put1(s, k, x.(at := Resting)));
      n := 1;
    } else {
      StrandAlone(c, s, k, d);
      Reput(s, k, x.(at := LoadingFinal), x.(at := CountingStrand));
      StepThen(c, a, s1, Put1(s, k, x.(at := CountingStrand)), 1, Stranded(c, s, k, d));
      n := 2;
    }
  }

  lemma {:induction false} StrandAlone(c: Config, s: State, k: nat, d: int)
    requires s.m.Shaped(c) && |s.l.outcomes| == c.consumers && k < c.consumers
    requires s.m.consumers[k].held == Claim(d)
    ensures Goes(c, Advance(k), Put1(s, k, s.m.consumers[k].(at := CountingStrand)), 1, Stranded(c, s, k, d))
  {
    var x := s.m.consumers[k];
    Reput(s, k, x.(at := CountingStrand), x.(held := Nothing, at := Resting));
    LastStepTo(c, Advance(k), Put1(s, k, x.(at := CountingStrand)), Stranded(c, s, k, d));
  }

  lemma {:induction false} GateAlone(c: Config, s: State, k: nat, d: int)
    requires Gated(c, s, k, d)
    ensures s.m.Shaped(c) && (Published(c, s, d) ==> Readable(c, s, k, d))
    ensures Next(c, s, Advance(k))
         == if Published(c, s, d) then ReadingAt(s, k, d, 0) else Put1(s, k, s.m.consumers[k].(at := CheckingClosed))
  {
    GateExact(c, s, k);
    if Published(c, s, d) {
      GateReadable(c, s, k, d);
      assert s.l.frames[d][..0] == [];
    }
  }

  /** A consumer at its gate. */
  lemma {:induction false} FromGate(c: Config, s: State, k: nat, d: int) returns (n: nat)
    requires Gated(c, s, k, d)
    ensures Goes(c, Advance(k), s, n, Settled(c, s, k, d))
  {
    GateAlone(c, s, k, d);
    if Published(c, s, d) {
      ReadAlone(c, s, k, d, 0);
      n := c.words + 1;
    } else {
      n := ShutAlone(c, s, k, d);
    }
    StepThen(c, Advance(k), s, Next(c, s, Advance(k)), n, Settled(c, s, k, d));
    n := n + 1;
  }

  /** The state in which an undisturbed `pull` stands at its gate: with the claim it held, or with one of the next
      ticket. */
  function ClaimedBy(s: State, k: nat): State
    requires k < |s.m.consumers|
  {
    var x := s.m.consumers[k];
    if x.held.Claim? then Put1(s, k, x.(at := AtGate)) else
      var t := s.(m := s.m.(dequeueTicket := s.m.dequeueTicket + 1), l := s.l.(claimants := s.l.claimants + [k]));
      Put1(t, k, x.(held := Claim(s.m.dequeueTicket), at := AtGate))
  }

  lemma {:induction false} HeldGate(c: Config, s: State, k: nat)
    requires Asking(c, s, k) && s.m.consumers[k].held.Claim?
    ensures Next(c, s, Pull(k)) == ClaimedBy(s, k) && Gated(c, ClaimedBy(s, k), k, s.m.consumers[k].held.ticket)
  {
    PullKeeps(c, s, k, Pull(k));
  }

  /** With nothing held and nothing to claim, the call changes nothing. */
  lemma {:induction false} EmptyAlone(c: Config, s: State, k: nat)
    requires Asking(c, s, k) && s.m.consumers[k].held.Nothing? && s.m.enqueueTicket <= s.m.dequeueTicket
    ensures Goes(c, Advance(k), Next(c, s, Pull(k)), 1, s)
  {
    var x := s.m.consumers[k];
    var s0 := Put1(s, k, x.(at := LoadedHead(s.m.dequeueTicket)));
    PullKeeps(c, s, k, Pull(k));
    assert Next(c, s, Pull(k)) == s0;
    Reput(s, k, x.(at := LoadedHead(s.m.dequeueTicket)), x);
    LastStepTo(c, Advance(k), s0, s);
  }

  lemma {:induction false} FreshGate(c: Config, s: State, k: nat)
    requires Asking(c, s, k) && s.m.consumers[k].held.Nothing? && s.m.dequeueTicket < s.m.enqueueTicket
    ensures Goes(c, Advance(k), Next(c, s, Pull(k)), 2, ClaimedBy(s, k))
    ensures Gated(c, ClaimedBy(s, k), k, s.m.dequeueTicket)
  {
    var a, x := Advance(k), s.m.consumers[k];
    var s0, s1 := Put1(s, k, x.(at := LoadedHead(s.m.dequeueTicket))), Put1(s, k, x.(at := Claiming));
    PullKeeps(c, s, k, Pull(k));
    assert Next(c, s, Pull(k)) == s0;
    ConsumerKeeps(c, s0, k);
    Reput(s, k, x.(at := LoadedHead(s.m.dequeueTicket)), x.(at := Claiming));
    assert Next(c, s0, a) == s1;
    ConsumerKeeps(c, s1, k);
    assert Next(c, s1, a) == ClaimedBy(s, k) by {
      Reput(s, k, x.(at := Claiming), x.(held := Claim(s.m.dequeueTicket), at := AtGate));
    }
    LastStepTo(c, a, s1, ClaimedBy(s, k));
    StepThen(c, a, s0, s1, 1, ClaimedBy(s, k));
  }

  /** What an undisturbed pull leaves. Nothing held and nothing to claim: everything as it was. Otherwise it stands at
      its gate with a ticket: a frame that is there is handed out and its slot freed; a claim past the end of a closed
      stream is given up and counted; any other claim is kept for the next call. */
  ghost predicate PullLeaves(c: Config, s: State, k: nat, s': State)
    requires s.m.Shaped(c) && |s.l.outcomes| == c.consumers && k < c.consumers && c.arith.Unbounded?
  {
    var x, d := s.m.consumers[k], if s.m.consumers[k].held.Claim? then s.m.consumers[k].held.ticket
                                  else s.m.dequeueTicket;
    if x.held.Nothing? && s.m.enqueueTicket <= s.m.dequeueTicket then s' == s else
    && s'.m.dequeueTicket == s.m.dequeueTicket + (if x.held.Claim? then 0 else 1)
    && s'.m.enqueueTicket == s.m.enqueueTicket && s'.m.payload == s.m.payload && s'.l.frames == s.l.frames
    && |s'.m.consumers| == |s'.l.outcomes| == c.consumers && s'.m.consumers[k].at.Resting?
    && if Published(c, s, d) && d < |s.l.frames| then
         && s'.l.outcomes[k] == Outcome(s.l.outcomes[k].tickets + [d], s.l.outcomes[k].frames + [s.l.frames[d]])
         && s'.m.gen == s.m.gen[c.arith.Slot(d, c.capacity) := d + c.capacity]
         && s'.m.consumers[k].held == Nothing && s'.m.strandedClaims == s.m.strandedClaims
       else
         && s'.l.outcomes == s.l.outcomes && s'.m.gen == s.m.gen
         && var gone := s.m.closed && d >= s.m.enqueueTicket;
            && s'.m.consumers[k].held == (if gone then Nothing else Claim(d))
            && s'.m.strandedClaims == s.m.strandedClaims + (if gone then 1 else 0)
  }

  lemma {:induction false} SettledLeaves(c: Config, s: State, k: nat, d: int)
    requires s.m.Shaped(c) && |s.l.outcomes| == c.consumers && k < c.consumers && c.arith.Unbounded?
    requires d == if s.m.consumers[k].held.Claim? then s.m.consumers[k].held.ticket else s.m.dequeueTicket
    requires s.m.consumers[k].held.Claim? || s.m.dequeueTicket < s.m.enqueueTicket
    requires ClaimedBy(s, k).m.Shaped(c)
    ensures PullLeaves(c, s, k, Settled(c, ClaimedBy(s, k), k, d))
  {
    assert Published(c, ClaimedBy(s, k), d) == Published(c, s, d);
  }

  lemma {:induction false} HeldGoes(c: Config, s: State, k: nat, d: int) returns (n: nat)
    requires Asking(c, s, k) && s.m.consumers[k].held == Claim(d)
    ensures ClaimedBy(s, k).m.Shaped(c)
    ensures Goes(c, Advance(k), Next(c, s, Pull(k)), n, Settled(c, ClaimedBy(s, k), k, d))
  {
    HeldGate(c, s, k);
    n := FromGate(c, ClaimedBy(s, k), k, d);
  }

  lemma {:induction false} FreshGoes(c: Config, s: State, k: nat, d: int) returns (n: nat)
    requires Asking(c, s, k) && s.m.consumers[k].held.Nothing? && d == s.m.dequeueTicket < s.m.enqueueTicket
    ensures ClaimedBy(s, k).m.Shaped(c)
    ensures Goes(c, Advance(k), Next(c, s, Pull(k)), n, Settled(c, ClaimedBy(s, k), k, d))
  {
    FreshGate(c, s, k);
    var n1 := FromGate(c, ClaimedBy(s, k), k, d);
    n := 2 + n1;
    Chained(c, Advance(k), Next(c, s, Pull(k)), 2, ClaimedBy(s, k), n1, n, Settled(c, ClaimedBy(s, k), k, d));
  }

  lemma {:induction false} PullGoes(c: Config, s: State, k: nat) returns (n: nat, s': State)
    requires Asking(c, s, k)
    ensures Goes(c, Advance(k), Next(c, s, Pull(k)), n, s') && PullLeaves(c, s, k, s')
  {
    var x := s.m.consumers[k];
    if x.held.Nothing? && s.m.enqueueTicket <= s.m.dequeueTicket {
      EmptyAlone(c, s, k);
      n, s' := 1, s;
    } else if x.held.Claim? {
      n := HeldGoes(c, s, k, x.held.ticket);
      s' := Settled(c, ClaimedBy(s, k), k, x.held.ticket);
      SettledLeaves(c, s, k, x.held.ticket);
    } else {
      n := FreshGoes(c, s, k, s.m.dequeueTicket);
      s' := Settled(c, ClaimedBy(s, k), k, s.m.dequeueTicket);
      SettledLeaves(c, s, k, s.m.dequeueTicket);
    }
  }

  /** The answer to an undisturbed `pull`, from any state of any run. */
  lemma {:induction false} PullAlone(c: Config, actions: seq<Action>, k: nat) returns (n: nat)
    requires c.Valid() && c.arith.Unbounded? && c.threads <= c.producerCount
    requires k < c.consumers && Run(c, actions).m.consumers[k].at.Resting?
    ensures PullLeaves(c, Run(c, actions), k, Run(c, actions + CallSteps(Pull(k), Advance(k), n)))
  {
    RunKeeps(c, actions);
    var s';
    n, s' := PullGoes(c, Run(c, actions), k);
    RunCall(c, actions, Pull(k), Advance(k), n);
  }
}
