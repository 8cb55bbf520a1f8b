/** What one `push` and one `pull` of MpmcRing do when no other thread moves meanwhile, from any state of any run. */
module FanInSolo {
  import opened Tickets
  import opened FanInRing
  import opened FanInSafety
  import opened Polling

  /** A step of one thread, as a function of the state. */
  function Stepping(c: Config, a: Action): State -> State {
    (s: State) => if s.m.Shaped(c) then Next(c, s, a) else s
  }

  function Times(a: Action, n: nat): (actions: seq<Action>)
    ensures |actions| == n && forall i :: 0 <= i < n ==> actions[i] == a
  {
    seq(n, _ => a)
  }

  lemma {:induction false} LastStep(c: Config, actions: seq<Action>, a: Action)
    requires c.Valid()
    ensures Run(c, actions + [a]) == Next(c, Run(c, actions), a)
  {
    assert (actions + [a])[..|actions|] == actions;
  }

  lemma {:induction false} LastOfTimes(c: Config, actions: seq<Action>, a: Action, n: nat)
    requires c.Valid()
    ensures Run(c, actions + Times(a, n + 1)) == Next(c, Run(c, actions + Times(a, n)), a)
  {
    assert (actions + Times(a, n + 1))[..|actions| + n] == actions + Times(a, n);
  }

  lemma {:induction false} RunTimes(c: Config, actions: seq<Action>, a: Action, n: nat)
    requires c.Valid()
    ensures Run(c, actions + Times(a, n)) == Iterate(Stepping(c, a), Run(c, actions), n)
    decreases n
  {
    if n == 0 {
      assert actions + Times(a, 0) == actions;
    } else {
      RunTimes(c, actions, a, n - 1);
      LastOfTimes(c, actions, a, n - 1);
    }
  }

  // `push`

  function At(s: State, p: nat, at: Producer): State
    requires p < |s.m.producers|
  {
    s.(m := s.m.(producers := s.m.producers[p := at]))
  }

  /** The claimed ticket's slot, with the first k words written. */
  function Written(c: Config, s: State, frame: Frame, k: nat): seq<Frame>
    requires s.m.Shaped(c) && k <= c.words == |frame|
  {
    var slot := c.arith.Slot(s.m.enqueueTicket, c.capacity);
    s.m.payload[slot := frame[..k] + s.m.payload[slot][k..]]
  }

  function Claimed(c: Config, s: State, p: nat, frame: Frame, k: nat): State
    requires s.m.Shaped(c) && k <= c.words == |frame| && p < c.threads
  {
    State(s.m.(enqueueTicket := c.arith.Lane(s.m.enqueueTicket + 1), payload := Written(c, s, frame, k),
               producers := s.m.producers[p := Writing(frame, s.m.enqueueTicket, k)]),
          s.l.(frames := s.l.frames + [frame], owners := s.l.owners + [p]))
  }

  lemma NoneWritten(c: Config, s: State, frame: Frame)
    requires s.m.Shaped(c) && |frame| == c.words
    ensures Written(c, s, frame, 0) == s.m.payload
  {
    var slot := c.arith.Slot(s.m.enqueueTicket, c.capacity);
    assert frame[..0] + s.m.payload[slot][0..] == s.m.payload[slot];
  }

  lemma AllWritten(c: Config, s: State, frame: Frame)
    requires s.m.Shaped(c) && |frame| == c.words
    ensures Written(c, s, frame, c.words) == s.m.payload[c.arith.Slot(s.m.enqueueTicket, c.capacity) := frame]
  {
    var slot := c.arith.Slot(s.m.enqueueTicket, c.capacity);
    assert frame[..c.words] + s.m.payload[slot][c.words..] == frame;
  }

  lemma {:induction false} WriteStep(c: Config, s: State, p: nat, frame: Frame, k: nat)
    requires s.m.Shaped(c) && k < c.words == |frame| && p < c.threads
    ensures Claimed(c, s, p, frame, k).m.Shaped(c)
    ensures Next(c, Claimed(c, s, p, frame, k), Resume(p)) == Claimed(c, s, p, frame, k + 1)
  {
    var slot := c.arith.Slot(s.m.enqueueTicket, c.capacity);
    var row := frame[..k] + s.m.payload[slot][k..];
    assert row[k := frame[k]] == frame[..k + 1] + s.m.payload[slot][k + 1..];
  }

  lemma {:induction false} WriteAlone(c: Config, s: State, p: nat, frame: Frame, k: nat)
    requires s.m.Shaped(c) && k <= c.words == |frame| && p < c.threads
    ensures Iterate(Stepping(c, Resume(p)), Claimed(c, s, p, frame, 0), k) == Claimed(c, s, p, frame, k)
    decreases k
  {
    if k > 0 {
      WriteAlone(c, s, p, frame, k - 1);
      WriteStep(c, s, p, frame, k - 1);
    }
  }

  /** What an undisturbed push leaves: with no room one more drop, and nothing else; with room its frame under the next
      ticket, whole, and its slot stamped with that ticket. */
  predicate PushLeaves(c: Config, s: State, p: nat, frame: Frame, s': State)
    requires s.m.Shaped(c)
  {
    var slot := c.arith.Slot(s.m.enqueueTicket, c.capacity);
    var room := c.arith.Diff(s.m.enqueueTicket, s.m.dequeuePos) < c.capacity - (c.producerCount - 1);
    && s'.l.attempts == s.l.attempts + 1 && s'.l.delivered == s.l.delivered
    && (!room ==> s'.m == s.m.(droppedFrames := c.arith.Lane(s.m.droppedFrames + 1)) && s'.l.frames == s.l.frames)
    && (room ==>
          && s'.m == s.m.(enqueueTicket := c.arith.Lane(s.m.enqueueTicket + 1),
                          payload := s.m.payload[slot := frame],
                          gen := s.m.gen[slot := c.arith.Lane(s.m.enqueueTicket)])
          && s'.l.frames == s.l.frames + [frame])
  }

  /** `push` by thread p: the opening step, and the n that follow it. */
  function PushSteps(p: nat, frame: Frame, n: nat): seq<Action> {
    [Push(p, frame)] + Times(Resume(p), n)
  }

  lemma {:induction false} RunPush(c: Config, actions: seq<Action>, p: nat, frame: Frame, n: nat)
    requires c.Valid()
    ensures Run(c, actions + PushSteps(p, frame, n))
         == Iterate(Stepping(c, Resume(p)), Next(c, Run(c, actions), Push(p, frame)), n)
  {
    LastStep(c, actions, Push(p, frame));
    RunTimes(c, actions + [Push(p, frame)], Resume(p), n);
    assert actions + PushSteps(p, frame, n) == (actions + [Push(p, frame)]) + Times(Resume(p), n);
  }

  predicate Room(c: Config, m: Machine) {
    c.arith.Diff(m.enqueueTicket, m.dequeuePos) < c.capacity - c.Slack()
  }

  lemma Opened(c: Config, s: State, p: nat, frame: Frame)
    requires s.m.Shaped(c) && p < c.threads && s.m.producers[p].Idle? && |frame| == c.words
    ensures var s0 := Next(c, s, Push(p, frame));
      && s0 == At(s.(l := s.l.(attempts := s.l.attempts + 1)), p, LoadedTicket(frame, s.m.enqueueTicket))
      && Next(c, s0, Resume(p))
         == At(s0, p, if Room(c, s.m) then Admitted(frame, s.m.enqueueTicket) else Dropping(frame))
  {
  }

  lemma Refused(c: Config, s: State, p: nat, frame: Frame)
    requires s.m.Shaped(c) && p < c.threads && s.m.producers[p].Idle? && |frame| == c.words
    ensures At(s, p, Dropping(frame)).m.Shaped(c)
    ensures Next(c, At(s, p, Dropping(frame)), Resume(p))
         == s.(m := s.m.(droppedFrames := c.arith.Lane(s.m.droppedFrames + 1)))
  {
    assert s.m.producers[p := Dropping(frame)][p := Idle] == s.m.producers;
  }

  lemma Claims(c: Config, s: State, p: nat, frame: Frame, w: int)
    requires s.m.Shaped(c) && p < c.threads && s.m.producers[p].Idle? && |frame| == c.words
    ensures At(s, p, Admitted(frame, w)).m.Shaped(c)
    ensures Next(c, At(s, p, Admitted(frame, w)), Resume(p)) == Claimed(c, s, p, frame, 0)
  {
    NoneWritten(c, s, frame);
  }

  lemma Publishes(c: Config, s: State, p: nat, frame: Frame)
    requires s.m.Shaped(c) && p < c.threads && s.m.producers[p].Idle? && |frame| == c.words
    ensures Claimed(c, s, p, frame, c.words).m.Shaped(c)
    ensures var slot := c.arith.Slot(s.m.enqueueTicket, c.capacity);
      Next(c, Claimed(c, s, p, frame, c.words), Resume(p))
      == State(s.m.(enqueueTicket := c.arith.Lane(s.m.enqueueTicket + 1), payload := s.m.payload[slot := frame],
                    gen := s.m.gen[slot := c.arith.Lane(s.m.enqueueTicket)]),
               s.l.(frames := s.l.frames + [frame], owners := s.l.owners + [p]))
  {
    AllWritten(c, s, frame);
    assert s.m.producers[p := Writing(frame, s.m.enqueueTicket, c.words)][p := Idle] == s.m.producers;
  }

  lemma Steps(c: Config, a: Action, s: State, n: nat, mid: State, next: State)
    requires mid == Iterate(Stepping(c, a), s, n) && mid.m.Shaped(c) && next == Next(c, mid, a)
    ensures Iterate(Stepping(c, a), s, n + 1) == next
  {
  }

  lemma {:induction false} PushRefused(c: Config, s: State, p: nat, frame: Frame)
    requires s.m.Shaped(c) && p < c.threads && s.m.producers[p].Idle? && |frame| == c.words && !Room(c, s.m)
    ensures PushLeaves(c, s, p, frame, Iterate(Stepping(c, Resume(p)), Next(c, s, Push(p, frame)), 2))
  {
    var a, s0, t := Resume(p), Next(c, s, Push(p, frame)), s.(l := s.l.(attempts := s.l.attempts + 1));
    Opened(c, s, p, frame);
    Refused(c, t, p, frame);
    Steps(c, a, s0, 0, s0, At(t, p, Dropping(frame)));
    Steps(c, a, s0, 1, At(t, p, Dropping(frame)), Next(c, At(t, p, Dropping(frame)), a));
  }

  /** The frame under the next ticket. */
  function PublishedAs(c: Config, s: State, p: nat, frame: Frame): State
    requires s.m.Shaped(c)
  {
    var slot := c.arith.Slot(s.m.enqueueTicket, c.capacity);
    State(s.m.(enqueueTicket := c.arith.Lane(s.m.enqueueTicket + 1), payload := s.m.payload[slot := frame],
               gen := s.m.gen[slot := c.arith.Lane(s.m.enqueueTicket)]),
          s.l.(frames := s.l.frames + [frame], owners := s.l.owners + [p]))
  }

  lemma {:induction false} PushClaims(c: Config, s: State, p: nat, frame: Frame)
    requires s.m.Shaped(c) && p < c.threads && s.m.producers[p].Idle? && |frame| == c.words && Room(c, s.m)
    ensures Iterate(Stepping(c, Resume(p)), Next(c, s, Push(p, frame)), 2)
         == Claimed(c, s.(l := s.l.(attempts := s.l.attempts + 1)), p, frame, 0)
  {
    var a, s0, t := Resume(p), Next(c, s, Push(p, frame)), s.(l := s.l.(attempts := s.l.attempts + 1));
    var s1 := At(t, p, Admitted(frame, s.m.enqueueTicket));
    Opened(c, s, p, frame);
    Claims(c, t, p, frame, s.m.enqueueTicket);
    Steps(c, a, s0, 0, s0, s1);
    Steps(c, a, s0, 1, s1, Next(c, s1, a));
  }

  lemma {:induction false} ClaimPublishes(c: Config, t: State, p: nat, frame: Frame)
    requires t.m.Shaped(c) && p < c.threads && t.m.producers[p].Idle? && |frame| == c.words
    ensures Iterate(Stepping(c, Resume(p)), Claimed(c, t, p, frame, 0), c.words + 1) == PublishedAs(c, t, p, frame)
  {
    WriteAlone(c, t, p, frame, c.words);
    Publishes(c, t, p, frame);
    var done := Claimed(c, t, p, frame, c.words);
    Steps(c, Resume(p), Claimed(c, t, p, frame, 0), c.words, done, Next(c, done, Resume(p)));
  }

  lemma {:induction false} PushAdmitted(c: Config, s: State, p: nat, frame: Frame)
    requires s.m.Shaped(c) && p < c.threads && s.m.producers[p].Idle? && |frame| == c.words && Room(c, s.m)
    ensures PushLeaves(c, s, p, frame, Iterate(Stepping(c, Resume(p)), Next(c, s, Push(p, frame)), c.words + 3))
  {
    var t := s.(l := s.l.(attempts := s.l.attempts + 1));
    PushClaims(c, s, p, frame);
    ClaimPublishes(c, t, p, frame);
    Joins(Stepping(c, Resume(p)), Next(c, s, Push(p, frame)), 2, c.words + 1);
    PublishedLeaves(c, s, p, frame);
  }

  lemma PublishedLeaves(c: Config, s: State, p: nat, frame: Frame)
    requires s.m.Shaped(c) && Room(c, s.m)
    ensures PushLeaves(c, s, p, frame, PublishedAs(c, s.(l := s.l.(attempts := s.l.attempts + 1)), p, frame))
  {
  }

  /** From any state of any run of either arithmetic, an undisturbed `push` is admitted exactly if fewer than
      capacity - (producerCount - 1) tickets are in flight by the lanes, and then it publishes exactly its frame. */
  lemma {:induction false} PushAlone(c: Config, actions: seq<Action>, p: nat, frame: Frame) returns (n: nat)
    requires c.Valid() && p < c.threads && Run(c, actions).m.producers[p].Idle? && |frame| == c.words
    ensures PushLeaves(c, Run(c, actions), p, frame, Run(c, actions + PushSteps(p, frame, n)))
  {
    var s := Run(c, actions);
    if !Room(c, s.m) {
      n := 2;
      PushRefused(c, s, p, frame);
    } else {
      n := c.words + 3;
      PushAdmitted(c, s, p, frame);
    }
    RunPush(c, actions, p, frame, n);
  }

  // `pull`

  function Consuming(s: State, at: Consumer): State {
    s.(m := s.m.(consumer := at))
  }

  lemma {:induction false} ReadStep(c: Config, s: State, k: nat)
    requires Inv(c, s) && Published(c, s, s.m.dequeuePos) && k <= c.words
    ensures var head := s.m.dequeuePos;
      && |s.l.frames[head]| == c.words
      && var frame := s.l.frames[head]; var now := Consuming(s, Reading(head, frame[..k]));
         && now.m.Shaped(c)
         && Next(c, now, Pull) == if k < c.words then Consuming(s, Reading(head, frame[..k + 1])) else Taken(s)
  {
    var head := s.m.dequeuePos;
    assert SlotOk(c, s, head);
    var frame := s.l.frames[head];
    if k < c.words {
      assert frame[..k + 1] == frame[..k] + [frame[k]];
    } else {
      assert frame[..k] == frame;
    }
  }

  /** The head handed out. */
  function Taken(s: State): State
    requires 0 <= s.m.dequeuePos < |s.l.frames|
  {
    State(s.m.(dequeuePos := s.m.dequeuePos + 1, consumer := Resting),
          s.l.(delivered := s.l.delivered + [s.l.frames[s.m.dequeuePos]]))
  }

  lemma {:induction false} ReadAlone(c: Config, s: State, k: nat)
    requires Inv(c, s) && Published(c, s, s.m.dequeuePos) && k <= c.words
    ensures var head := s.m.dequeuePos;
      && |s.l.frames[head]| == c.words
      && Iterate(Stepping(c, Pull), Consuming(s, Reading(head, [])), k)
         == Consuming(s, Reading(head, s.l.frames[head][..k]))
    decreases k
  {
    ReadStep(c, s, 0);
    assert s.l.frames[s.m.dequeuePos][..0] == [];
    if k > 0 {
      ReadAlone(c, s, k - 1);
      ReadStep(c, s, k - 1);
    }
  }

  lemma {:induction false} GateOpens(c: Config, s: State)
    requires Inv(c, s) && s.m.consumer.Resting?
    ensures var head := s.m.dequeuePos;
      Iterate(Stepping(c, Pull), s, 3) == if Published(c, s, head) then Consuming(s, Reading(head, [])) else s
  {
    var head := s.m.dequeuePos;
    var s1, s2 := Consuming(s, LoadedHead(head)), Consuming(s, AtGate(head, head));
    Steps(c, Pull, s, 0, s, s1);
    Steps(c, Pull, s, 1, s1, s2);
    assert SlotOk(c, s, head);
    Steps(c, Pull, s, 2, s2, Next(c, s2, Pull));
  }

  /** The head has been claimed, and its producer is no longer writing. */
  ghost predicate HeadThere(c: Config, s: State) {
    && s.m.dequeuePos < |s.l.frames| == |s.l.owners|
    && forall p :: 0 <= p < |s.m.producers| && s.m.producers[p].Writing? ==> s.m.producers[p].ticket != s.m.dequeuePos
  }

  lemma {:induction false} ThereIsPublished(c: Config, s: State)
    requires Inv(c, s)
    ensures Published(c, s, s.m.dequeuePos) <==> HeadThere(c, s)
  {
    forall p: nat | p < c.threads && s.m.producers[p].Writing? && s.m.producers[p].ticket == s.m.dequeuePos
      ensures InProgress(c, s, s.m.dequeuePos)
    {
      assert ProducerOk(c, s, p);
    }
    if InProgress(c, s, s.m.dequeuePos) {
      assert s.m.producers[s.l.owners[s.m.dequeuePos]].Writing?;
    }
  }

  /** From any state of any run, an undisturbed `pull` hands out the frame at the head exactly if it is there, and
      changes nothing otherwise. */
  lemma {:induction false} PullAlone(c: Config, actions: seq<Action>) returns (n: nat)
    requires c.Valid() && c.arith.Unbounded? && c.threads <= c.producerCount && Run(c, actions).m.consumer.Resting?
    ensures var s, s' := Run(c, actions), Run(c, actions + Times(Pull, n));
      && n > 0 && s.m.dequeuePos >= 0
      && (!HeadThere(c, s) ==> s' == s)
      && (HeadThere(c, s) ==> s' == State(s.m.(dequeuePos := s.m.dequeuePos + 1),
                                          s.l.(delivered := s.l.delivered + [s.l.frames[s.m.dequeuePos]])))
  {
    RunKeeps(c, actions);
    ThereIsPublished(c, Run(c, actions));
    n := PullLength(c, Run(c, actions));
    RunTimes(c, actions, Pull, n);
  }

  lemma {:induction false} PullTakes(c: Config, s: State)
    requires Inv(c, s) && Published(c, s, s.m.dequeuePos)
    ensures Iterate(Stepping(c, Pull), Consuming(s, Reading(s.m.dequeuePos, [])), c.words + 1) == Taken(s)
  {
    ReadAlone(c, s, c.words);
    ReadStep(c, s, c.words);
    var frame := s.l.frames[s.m.dequeuePos];
    Steps(c, Pull, Consuming(s, Reading(s.m.dequeuePos, [])), c.words,
      Consuming(s, Reading(s.m.dequeuePos, frame[..c.words])), Taken(s));
  }

  lemma {:induction false} PullLength(c: Config, s: State) returns (n: nat)
    requires Inv(c, s) && s.m.consumer.Resting?
    ensures n > 0
    ensures Iterate(Stepping(c, Pull), s, n) == if Published(c, s, s.m.dequeuePos) then Taken(s) else s
  {
    n := 3;
    GateOpens(c, s);
    if Published(c, s, s.m.dequeuePos) {
      n := 3 + (c.words + 1);
      PullTakes(c, s);
      Joins(Stepping(c, Pull), s, 3, c.words + 1);
    }
  }
}
