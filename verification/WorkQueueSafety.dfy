/** Every step of MpmcWorkQueue keeps its invariant. */
module WorkQueueSafety {
  import opened Tickets
  import opened WorkQueue
  import opened WorkQueueInvariant
  import Pigeonhole

  lemma {:induction false} InitOk(c: Config)
    requires c.Valid() && c.arith.Unbounded? && c.threads <= c.producerCount
    ensures Inv(c, Run(c, []))
  {
    var s := Run(c, []);
    assert s.m == InitLayout(c);
    forall t | 0 - c.capacity <= t < 0 ensures SlotOk(c, s, t) {
      NextLap(t, c.capacity);
      FirstLap(t + c.capacity, c.capacity);
    }
    forall k: nat | k < c.consumers ensures ConsumerOk(c, s, k) {
      assert s.m.consumers[k] == Consumer(Nothing, false, Resting);
      assert s.l.outcomes[k] == Outcome([], []);
    }
  }

  /** The scan's stamp test is exact: it passes ticket f if and only if f has been delivered. */
  lemma {:induction false} ScanExact(c: Config, s: State, f: int)
    requires Inv(c, s) && 0 <= f && DeliveredBelow(s.l, f)
    ensures s.m.gen[c.arith.Slot(f, c.capacity)] >= f + c.capacity <==> f in s.l.freed
  {
    var w := s.m.enqueueTicket;
    assert w !in s.l.freed;
    assert f <= w;
    if f == w {
      NextLap(w - c.capacity, c.capacity);
      assert SlotOk(c, s, w - c.capacity);
    } else if f >= w - c.capacity {
      assert SlotOk(c, s, f);
    } else {
      var t := LiveTicket(c, w, f);
      assert SlotOk(c, s, t);
    }
  }

  /** The ticket among the last `capacity` that shares f's slot. */
  lemma {:induction false} LiveTicket(c: Config, w: int, f: int) returns (t: int)
    requires c.Valid() && c.arith.Unbounded? && f < w - c.capacity
    ensures w - c.capacity <= t < w && c.arith.Slot(t, c.capacity) == c.arith.Slot(f, c.capacity)
    ensures t >= f + c.capacity
    decreases w - f
  {
    NextLap(f, c.capacity);
    if f + c.capacity >= w - c.capacity {
      t := f + c.capacity;
    } else {
      t := LiveTicket(c, w, f + c.capacity);
    }
  }

  /** Among the last producerCount + 1 claims two share an owner, so the unfused check and fetch-add
      still leave every ticket a lap back delivered. */
  lemma {:induction false} EnvelopeAfterClaim(c: Config, l: Log)
    requires c.Valid() && c.threads <= c.producerCount && Pigeonhole.Below(l.owners, c.threads)
    requires PushesSpaced(c, l)
    ensures DeliveredBelow(l, |l.owners| - c.capacity)
  {
    var lo := |l.owners| - 1 - c.producerCount;
    if lo >= 0 && !DeliveredBelow(l, |l.owners| - c.capacity) {
      var t :| 0 <= t < |l.owners| - c.capacity && t !in l.freed;
      forall i, j | 0 <= i < j < |l.owners| && lo <= i ensures l.owners[i] != l.owners[j] {
      }
      Pigeonhole.AtMostOneEach(l.owners, lo, c.threads);
    }
  }

  /** Steps that leave tickets, stamps, payload and history alone. */
  ghost predicate SameRing(s: State, s': State) {
    && s'.l.(attempts := 0) == s.l.(attempts := 0)
    && s'.m.enqueueTicket == s.m.enqueueTicket && s'.m.dequeueTicket == s.m.dequeueTicket
    && s'.m.gen == s.m.gen && s'.m.payload == s.m.payload
    && s'.m.strandedClaims == s.m.strandedClaims && s'.m.tornGuarded == s.m.tornGuarded
    && (s.m.closed ==> s'.m.closed)
  }

  /** A producer moving outside `Writing` disturbs nothing. */
  lemma {:induction false} ProducerMoves(c: Config, s: State, s': State, p: nat)
    requires Inv(c, s) && s'.m.Shaped(c) && SameRing(s, s') && p < c.threads
    requires s'.m.consumers == s.m.consumers && s'.m.closed == s.m.closed
    requires s'.m.producers == s.m.producers[p := s'.m.producers[p]]
    requires !s.m.producers[p].Writing? && !s'.m.producers[p].Writing?
    requires TicketsOk(c, s') && ProducerOk(c, s', p)
    requires 0 <= s'.m.frontier && DeliveredBelow(s'.l, s'.m.frontier)
    ensures Inv(c, s')
  {
    SlotsSame(c, s, s');
    forall q: nat | q < c.threads ensures ProducerOk(c, s', q) {
      assert ProducerOk(c, s, q);
    }
    forall k: nat | k < c.consumers ensures ConsumerOk(c, s', k) {
      assert ConsumerOk(c, s, k);
    }
    forall d | 0 <= d < s.m.dequeueTicket ensures ClaimCovered(c, s', d) {
      assert ClaimCovered(c, s, d);
    }
  }

  lemma SlotsSame(c: Config, s: State, s': State)
    requires Inv(c, s) && s'.m.Shaped(c) && SameRing(s, s') && TicketsOk(c, s')
    requires forall q: nat :: q < c.threads ==>
               (s'.m.producers[q] == s.m.producers[q]
                || (!s.m.producers[q].Writing? && !s'.m.producers[q].Writing?))
    ensures forall t :: InProgress(c, s', t) == InProgress(c, s, t)
    ensures forall t :: s.m.enqueueTicket - c.capacity <= t < s.m.enqueueTicket ==> SlotOk(c, s', t)
  {
    forall t ensures InProgress(c, s', t) == InProgress(c, s, t) {
    }
    forall t | s.m.enqueueTicket - c.capacity <= t < s.m.enqueueTicket ensures SlotOk(c, s', t) {
      assert SlotOk(c, s, t);
    }
  }

  lemma {:induction false} ProducerKeeps(c: Config, s: State, p: nat)
    requires Inv(c, s) && p < c.threads
    ensures Inv(c, Next(c, s, Resume(p)))
  {
    match s.m.producers[p]
    case Idle =>
    case Scanning(_, _, _, _) => ScanKeeps(c, s, p);
    case LoadedTicket(_, _) => CheckKeeps(c, s, p);
    case Admitted(_) =>
      if !s.m.closed {
        ClaimKeeps(c, s, p);
      }
    case Writing(_, _, k) =>
      if k < c.words {
        WriteKeeps(c, s, p);
      } else {
        PublishKeeps(c, s, p);
      }
    case _ => FrontierKeeps(c, s, p);
  }

  lemma {:induction false} ScanKeeps(c: Config, s: State, p: nat)
    requires Inv(c, s) && p < c.threads && s.m.producers[p].Scanning?
    ensures Inv(c, Next(c, s, Resume(p)))
  {
    ScansOn(c, s, p);
    ProducerMoves(c, s, Next(c, s, Resume(p)), p);
  }

  lemma {:induction false} ScansOn(c: Config, s: State, p: nat)
    requires Inv(c, s) && p < c.threads && s.m.producers[p].Scanning?
    ensures ProducerOk(c, Next(c, s, Resume(p)), p)
  {
    assert ProducerOk(c, s, p);
    ScanExact(c, s, s.m.producers[p].f);
  }

  lemma {:induction false} CheckKeeps(c: Config, s: State, p: nat)
    requires Inv(c, s) && p < c.threads && s.m.producers[p].LoadedTicket?
    ensures Inv(c, Next(c, s, Resume(p)))
  {
    if s.m.producers[p].w - s.m.frontier < c.capacity - c.Slack() {
      AdmissionOk(c, s, p);
    }
    ProducerMoves(c, s, Next(c, s, Resume(p)), p);
  }

  lemma {:induction false} FrontierKeeps(c: Config, s: State, p: nat)
    requires Inv(c, s) && p < c.threads
    requires var x := s.m.producers[p]; x.Rechecking? || x.StoringFrontier? || x.LoadingTicket? || x.Dropping?
    ensures Inv(c, Next(c, s, Resume(p)))
  {
    assert ProducerOk(c, s, p);
    ProducerMoves(c, s, Next(c, s, Resume(p)), p);
  }

  /** What the check buys: the producer's earlier tickets lie below W, and W below the envelope. */
  lemma AdmissionOk(c: Config, s: State, p: nat)
    requires Inv(c, s) && p < c.threads && s.m.producers[p].LoadedTicket?
    requires s.m.producers[p].w - s.m.frontier < c.capacity - c.Slack()
    ensures forall t :: 0 <= t < |s.l.owners| && s.l.owners[t] == p
              ==> DeliveredBelow(s.l, t + 1 + c.producerCount - c.capacity)
  {
    assert ProducerOk(c, s, p);
  }

  lemma {:induction false} ClaimKeeps(c: Config, s: State, p: nat)
    requires Inv(c, s) && p < c.threads && s.m.producers[p].Admitted? && !s.m.closed
    ensures Inv(c, Next(c, s, Resume(p)))
  {
    var s' := Next(c, s, Resume(p));
    var w := s.m.enqueueTicket;
    assert ProducerOk(c, s, p);
    assert PushesSpaced(c, s'.l);
    EnvelopeAfterClaim(c, s'.l);
    ClaimSlots(c, s, p);
    ClaimProducers(c, s, p);
    ClaimConsumers(c, s, p);
  }

  lemma {:induction false} ClaimProducers(c: Config, s: State, p: nat)
    requires Inv(c, s) && p < c.threads && s.m.producers[p].Admitted? && !s.m.closed
    requires Shape(c, Next(c, s, Resume(p)))
    ensures forall q: nat :: q < c.threads ==> ProducerOk(c, Next(c, s, Resume(p)), q)
  {
    var s' := Next(c, s, Resume(p));
    forall q: nat | q < c.threads ensures ProducerOk(c, s', q) {
      assert ProducerOk(c, s, q);
    }
  }

  lemma {:induction false} ClaimConsumers(c: Config, s: State, p: nat)
    requires Inv(c, s) && p < c.threads && s.m.producers[p].Admitted? && !s.m.closed
    requires Shape(c, Next(c, s, Resume(p)))
    requires forall t :: t != s.m.enqueueTicket ==> InProgress(c, Next(c, s, Resume(p)), t) == InProgress(c, s, t)
    ensures var s' := Next(c, s, Resume(p));
      && (forall k: nat :: k < c.consumers ==> ConsumerOk(c, s', k))
      && (forall d :: 0 <= d < s.m.dequeueTicket ==> ClaimCovered(c, s', d))
  {
    var s' := Next(c, s, Resume(p));
    forall k: nat | k < c.consumers ensures ConsumerOk(c, s', k) {
      assert ConsumerOk(c, s, k);
    }
    forall d | 0 <= d < s.m.dequeueTicket ensures ClaimCovered(c, s', d) {
      assert ClaimCovered(c, s, d);
    }
  }

  lemma {:induction false} ClaimSlots(c: Config, s: State, p: nat)
    requires Inv(c, s) && p < c.threads && s.m.producers[p].Admitted? && !s.m.closed
    requires DeliveredBelow(s.l, s.m.enqueueTicket + 1 - c.capacity)
    requires Shape(c, Next(c, s, Resume(p)))
    ensures var s' := Next(c, s, Resume(p));
      && (forall t :: t != s.m.enqueueTicket ==> InProgress(c, s', t) == InProgress(c, s, t))
      && (forall t :: s'.m.enqueueTicket - c.capacity <= t < s'.m.enqueueTicket ==> SlotOk(c, s', t))
  {
    var s' := Next(c, s, Resume(p));
    var w := s.m.enqueueTicket;
    forall t | t != w ensures InProgress(c, s', t) == InProgress(c, s, t) {
    }
    assert InProgress(c, s', w);
    assert SlotOk(c, s, w - c.capacity);
    NextLap(w - c.capacity, c.capacity);
    forall t | w + 1 - c.capacity <= t < w + 1 ensures SlotOk(c, s', t) {
      if t < w {
        assert SlotOk(c, s, t);
      }
    }
  }

  /** A ticket being written, or held and unfreed below W, lies among the last `capacity`. */
  lemma LiveWindow(c: Config, s: State, mine: int)
    requires Inv(c, s) && 0 <= mine < s.m.enqueueTicket && mine !in s.l.freed
    ensures s.m.enqueueTicket - c.capacity <= mine && SlotOk(c, s, mine)
    ensures forall t :: s.m.enqueueTicket - c.capacity <= t < s.m.enqueueTicket && t != mine
              ==> c.arith.Slot(t, c.capacity) != c.arith.Slot(mine, c.capacity)
  {
    WindowDistinct(s.m.enqueueTicket - c.capacity, c.capacity);
  }

  lemma {:induction false} WriteKeeps(c: Config, s: State, p: nat)
    requires Inv(c, s) && p < c.threads
    requires s.m.producers[p].Writing? && s.m.producers[p].done < c.words
    ensures Inv(c, Next(c, s, Resume(p)))
  {
    var s' := Next(c, s, Resume(p));
    assert ProducerOk(c, s, p);
    var mine := s.m.producers[p].ticket;
    LiveWindow(c, s, mine);
    forall t ensures InProgress(c, s', t) == InProgress(c, s, t) {
    }
    assert InProgress(c, s, mine);
    forall t | s.m.enqueueTicket - c.capacity <= t < s.m.enqueueTicket ensures SlotOk(c, s', t) {
      assert SlotOk(c, s, t);
    }
    forall q: nat | q < c.threads ensures ProducerOk(c, s', q) {
      WriteProducer(c, s, p, q);
    }
    ConsumersSame(c, s, s');
  }

  lemma {:induction false} WriteProducer(c: Config, s: State, p: nat, q: nat)
    requires Inv(c, s) && p < c.threads && q < c.threads
    requires s.m.producers[p].Writing? && s.m.producers[p].done < c.words
    ensures ProducerOk(c, Next(c, s, Resume(p)), q)
  {
    var Writing(frame, mine, k) := s.m.producers[p];
    assert ProducerOk(c, s, p);
    LiveWindow(c, s, mine);
    assert ProducerOk(c, s, q);
    if q == p {
      var slot := c.arith.Slot(mine, c.capacity);
      var row := s.m.payload[slot][k := frame[k]];
      assert row[..k + 1] == s.m.payload[slot][..k] + [frame[k]] == frame[..k + 1];
    } else if s.m.producers[q].Writing? {
      LiveWindow(c, s, s.m.producers[q].ticket);
    }
  }

  lemma {:induction false} PublishKeeps(c: Config, s: State, p: nat)
    requires Inv(c, s) && p < c.threads
    requires s.m.producers[p].Writing? && s.m.producers[p].done == c.words
    ensures Inv(c, Next(c, s, Resume(p)))
  {
    var s' := Next(c, s, Resume(p));
    assert ProducerOk(c, s, p);
    PublishSlots(c, s, p);
    forall q: nat | q < c.threads ensures ProducerOk(c, s', q) {
      assert ProducerOk(c, s, q);
    }
    ConsumersSame(c, s, s');
  }

  lemma {:induction false} PublishSlots(c: Config, s: State, p: nat)
    requires Inv(c, s) && p < c.threads
    requires s.m.producers[p].Writing? && s.m.producers[p].done == c.words
    requires Shape(c, Next(c, s, Resume(p)))
    ensures var s' := Next(c, s, Resume(p));
      && (forall t :: t != s.m.producers[p].ticket ==> InProgress(c, s', t) == InProgress(c, s, t))
      && (forall t :: s.m.enqueueTicket - c.capacity <= t < s.m.enqueueTicket ==> SlotOk(c, s', t))
  {
    var s' := Next(c, s, Resume(p));
    assert ProducerOk(c, s, p);
    var Writing(frame, mine, k) := s.m.producers[p];
    LiveWindow(c, s, mine);
    forall t | t != mine ensures InProgress(c, s', t) == InProgress(c, s, t) {
    }
    assert frame[..k] == frame;
    forall t | s.m.enqueueTicket - c.capacity <= t < s.m.enqueueTicket ensures SlotOk(c, s', t) {
      assert SlotOk(c, s, t);
    }
  }

  /** A producer's write or publish takes nothing from the consumers. */
  lemma ConsumersSame(c: Config, s: State, s': State)
    requires Inv(c, s) && Shape(c, s')
    requires s'.l == s.l && s'.m.consumers == s.m.consumers && s'.m.closed == s.m.closed
    requires s'.m.enqueueTicket == s.m.enqueueTicket && s'.m.dequeueTicket == s.m.dequeueTicket
    requires s'.m.strandedClaims == s.m.strandedClaims
    requires forall t :: Published(c, s, t) ==> Published(c, s', t)
    ensures forall k: nat :: k < c.consumers ==> ConsumerOk(c, s', k)
    ensures forall d :: 0 <= d < s.m.dequeueTicket ==> ClaimCovered(c, s', d)
    ensures StrandsOk(c, s') && FreedRecorded(c, s')
  {
    forall k: nat | k < c.consumers ensures ConsumerOk(c, s', k) {
      assert ConsumerOk(c, s, k);
    }
    forall d | 0 <= d < s.m.dequeueTicket ensures ClaimCovered(c, s', d) {
      assert ClaimCovered(c, s, d);
    }
  }

  // ----- consumers -----

  /** A consumer changing only its own position disturbs nothing. */
  lemma {:induction false} ConsumerMoves(c: Config, s: State, s': State, k: nat)
    requires Inv(c, s) && s'.m.Shaped(c) && k < c.consumers && s'.l == s.l
    requires s'.m == s.m.(consumers := s.m.consumers[k := s'.m.consumers[k]])
    requires s'.m.consumers[k].held == s.m.consumers[k].held
    requires TicketsOk(c, s') && PositionOk(c, s', k) && DrainedOk(c, s', k)
    ensures Inv(c, s')
  {
    SlotsSame(c, s, s');
    forall q: nat | q < c.threads ensures ProducerOk(c, s', q) {
      assert ProducerOk(c, s, q);
    }
    forall j: nat | j < c.consumers ensures ConsumerOk(c, s', j) {
      assert ConsumerOk(c, s, j);
    }
    forall d | 0 <= d < s.m.dequeueTicket ensures ClaimCovered(c, s', d) {
      assert ClaimCovered(c, s, d);
    }
  }

  /** The stamp test at the gate is exact and its "reused" answer is unreachable. */
  lemma {:induction false} GateExact(c: Config, s: State, k: nat)
    requires Inv(c, s) && k < c.consumers && s.m.consumers[k].held.Claim?
    ensures var d := s.m.consumers[k].held.ticket;
      var stamp := s.m.gen[c.arith.Slot(d, c.capacity)];
      && stamp <= d + 1
      && (stamp == d + 1 <==> Published(c, s, d))
  {
    var d, w := s.m.consumers[k].held.ticket, s.m.enqueueTicket;
    assert ConsumerOk(c, s, k);
    if d < w {
      LiveWindow(c, s, d);
    } else {
      var t := LiveTicket2(c, w, d);
      assert SlotOk(c, s, t);
    }
  }

  /** The live ticket that shares the slot of a ticket not yet claimed. */
  lemma {:induction false} LiveTicket2(c: Config, w: int, d: int) returns (t: int)
    requires c.Valid() && c.arith.Unbounded? && d >= w
    ensures w - c.capacity <= t < w && c.arith.Slot(t, c.capacity) == c.arith.Slot(d, c.capacity)
    ensures t <= d - c.capacity
    decreases d - w
  {
    NextLap(d - c.capacity, c.capacity);
    if d - c.capacity < w {
      t := d - c.capacity;
    } else {
      t := LiveTicket2(c, w, d - c.capacity);
    }
  }

  lemma {:induction false} ConsumerKeeps(c: Config, s: State, k: nat)
    requires Inv(c, s) && k < c.consumers
    ensures Inv(c, Next(c, s, Advance(k)))
  {
    var s' := Next(c, s, Advance(k));
    var x := s.m.consumers[k];
    assert PositionOk(c, s, k) by {
      assert ConsumerOk(c, s, k);
    }
    match x.at
    case Resting =>
      assert s'.m.consumers == s.m.consumers;
    case Claiming => PullClaimKeeps(c, s, k);
    case AtGate => GateKeeps(c, s, k);
    case Reading(out) =>
      if |out| < c.words {
        WordKeeps(c, s, k);
      } else {
        FreeKeeps(c, s, k);
      }
    case CountingStrand => StrandKeeps(c, s, k);
    case _ => LookKeeps(c, s, k);
  }

  /** Loads of the closed flag and of the two tickets. */
  lemma {:induction false} LookKeeps(c: Config, s: State, k: nat)
    requires Inv(c, s) && k < c.consumers
    requires var at := s.m.consumers[k].at;
      at.LoadedHead? || at.CheckingClosed? || at.LoadingFinal? || at.DrainClosed? || at.DrainTicket?
    ensures Inv(c, Next(c, s, Advance(k)))
  {
    assert ConsumerOk(c, s, k);
    ConsumerMoves(c, s, Next(c, s, Advance(k)), k);
  }

  lemma {:induction false} GateKeeps(c: Config, s: State, k: nat)
    requires Inv(c, s) && k < c.consumers && s.m.consumers[k].at.AtGate?
    ensures Inv(c, Next(c, s, Advance(k)))
  {
    var s' := Next(c, s, Advance(k));
    assert ConsumerOk(c, s, k);
    GateExact(c, s, k);
    assert forall t :: InProgress(c, s', t) == InProgress(c, s, t);
    ConsumerMoves(c, s, s', k);
  }

  lemma {:induction false} WordKeeps(c: Config, s: State, k: nat)
    requires Inv(c, s) && k < c.consumers
    requires s.m.consumers[k].at.Reading? && |s.m.consumers[k].at.out| < c.words
    ensures Inv(c, Next(c, s, Advance(k)))
  {
    var s' := Next(c, s, Advance(k));
    var d, out := s.m.consumers[k].held.ticket, s.m.consumers[k].at.out;
    assert ConsumerOk(c, s, k);
    LiveWindow(c, s, d);
    var row := s.l.frames[d];
    assert row[..|out| + 1] == row[..|out|] + [row[|out|]];
    assert InProgress(c, s', d) == InProgress(c, s, d);
    ConsumerMoves(c, s, s', k);
  }

  /** A consumer's claim, strand or free leaves the producers' side of the invariant intact. */
  lemma {:induction false} RingKept(c: Config, s: State, s': State, mine: int)
    requires Inv(c, s) && Shape(c, s')
    requires s'.m.producers == s.m.producers && s'.m.payload == s.m.payload
    requires s'.m.enqueueTicket == s.m.enqueueTicket && s'.m.frontier == s.m.frontier
    requires s'.l.owners == s.l.owners && s'.l.frames == s.l.frames
    requires s.l.freed <= s'.l.freed <= s.l.freed + {mine} && !InProgress(c, s, mine)
    ensures forall t :: InProgress(c, s', t) == InProgress(c, s, t)
    ensures forall q: nat :: q < c.threads ==> ProducerOk(c, s', q)
    ensures DeliveredBelow(s'.l, s.m.frontier) && DeliveredBelow(s'.l, s.m.enqueueTicket - c.capacity)
    ensures PushesSpaced(c, s'.l)
  {
    forall q: nat | q < c.threads ensures ProducerOk(c, s', q) {
      assert ProducerOk(c, s, q);
      assert s.m.producers[q].Writing? ==> InProgress(c, s, s.m.producers[q].ticket);
    }
  }

  /** The other consumers do not notice what consumer k does to ticket `mine`, its own. */
  lemma {:induction false} OthersKept(c: Config, s: State, s': State, k: nat, mine: int)
    requires Inv(c, s) && Shape(c, s') && k < c.consumers
    requires s'.m.consumers == s.m.consumers[k := s'.m.consumers[k]] && s'.m.closed == s.m.closed
    requires s'.l.outcomes == s.l.outcomes[k := s'.l.outcomes[k]]
    requires s'.m.enqueueTicket == s.m.enqueueTicket && s.m.dequeueTicket <= s'.m.dequeueTicket
    requires s'.l.frames == s.l.frames && s.l.claimants <= s'.l.claimants
    requires forall i :: |s.l.claimants| <= i < |s'.l.claimants| ==> s'.l.claimants[i] == k
    requires s.l.freed <= s'.l.freed <= s.l.freed + {mine} && s'.l.stranded <= s.l.stranded + {mine}
    requires 0 <= mine < |s.l.claimants| ==> s.l.claimants[mine] == k
    requires forall t :: InProgress(c, s', t) == InProgress(c, s, t)
    ensures forall j: nat :: j < c.consumers && j != k ==> ConsumerOk(c, s', j)
  {
    forall j: nat | j < c.consumers && j != k ensures ConsumerOk(c, s', j) {
      assert ConsumerOk(c, s, j);
    }
  }

  lemma {:induction false} PullClaimKeeps(c: Config, s: State, k: nat)
    requires Inv(c, s) && k < c.consumers && s.m.consumers[k].at.Claiming?
    ensures Inv(c, Next(c, s, Advance(k)))
  {
    var s' := Next(c, s, Advance(k));
    var r := s.m.dequeueTicket;
    assert PositionOk(c, s, k) && r !in s.l.stranded by {
      assert ConsumerOk(c, s, k);
    }
    assert s'.l.claimants == s.l.claimants + [k];
    RingKept(c, s, s', -1);
    StampsKept(c, s, s');
    OthersKept(c, s, s', k, r);
    ClaimantOk(c, s, k);
    forall d | 0 <= d < r + 1 ensures ClaimCovered(c, s', d) {
      if d < r {
        assert ClaimCovered(c, s, d);
      }
    }
  }

  lemma StampsKept(c: Config, s: State, s': State)
    requires Inv(c, s) && Shape(c, s') && s'.m.gen == s.m.gen && s'.m.payload == s.m.payload
    requires s'.m.enqueueTicket == s.m.enqueueTicket && s'.l.freed == s.l.freed && s'.l.frames == s.l.frames
    requires forall t :: InProgress(c, s', t) == InProgress(c, s, t)
    ensures forall t :: s.m.enqueueTicket - c.capacity <= t < s.m.enqueueTicket ==> SlotOk(c, s', t)
  {
    forall t | s.m.enqueueTicket - c.capacity <= t < s.m.enqueueTicket ensures SlotOk(c, s', t) {
      assert SlotOk(c, s, t);
    }
  }

  lemma {:induction false} ClaimantOk(c: Config, s: State, k: nat)
    requires Inv(c, s) && k < c.consumers && s.m.consumers[k].at.Claiming?
    requires Shape(c, Next(c, s, Advance(k)))
    ensures ConsumerOk(c, Next(c, s, Advance(k)), k)
  {
    assert ConsumerOk(c, s, k);
  }

  lemma {:induction false} StrandKeeps(c: Config, s: State, k: nat)
    requires Inv(c, s) && k < c.consumers && s.m.consumers[k].at.CountingStrand?
    ensures Inv(c, Next(c, s, Advance(k)))
  {
    var s' := Next(c, s, Advance(k));
    var mine := s.m.consumers[k].held.ticket;
    assert ConsumerOk(c, s, k);
    RingKept(c, s, s', -1);
    StampsKept(c, s, s');
    OthersKept(c, s, s', k, mine);
    assert ConsumerOk(c, s', k);
    CoveredKept(c, s, s', k, mine);
  }

  /** Giving up ticket `mine` by freeing or stranding it uncovers nothing. */
  lemma CoveredKept(c: Config, s: State, s': State, k: nat, mine: int)
    requires Inv(c, s) && Shape(c, s') && k < c.consumers
    requires s.m.consumers[k].held == Claim(mine)
    requires s'.m.consumers == s.m.consumers[k := s'.m.consumers[k]]
    requires s'.l.claimants == s.l.claimants && s.l.freed <= s'.l.freed && s.l.stranded <= s'.l.stranded
    requires mine in s'.l.freed || mine in s'.l.stranded
    ensures forall d :: 0 <= d < s.m.dequeueTicket ==> ClaimCovered(c, s', d)
  {
    forall d | 0 <= d < s.m.dequeueTicket ensures ClaimCovered(c, s', d) {
      assert ClaimCovered(c, s, d);
    }
  }

  lemma {:induction false} FreeKeeps(c: Config, s: State, k: nat)
    requires Inv(c, s) && k < c.consumers
    requires s.m.consumers[k].at.Reading? && |s.m.consumers[k].at.out| == c.words
    ensures Inv(c, Next(c, s, Advance(k)))
  {
    var s' := Next(c, s, Advance(k));
    var mine := s.m.consumers[k].held.ticket;
    assert ConsumerOk(c, s, k);
    RingKept(c, s, s', mine);
    FreeSlots(c, s, k);
    OthersKept(c, s, s', k, mine);
    DelivererOk(c, s, k);
    CoveredKept(c, s, s', k, mine);
    FreeRecorded(c, s, k);
  }

  lemma {:induction false} FreeSlots(c: Config, s: State, k: nat)
    requires Inv(c, s) && k < c.consumers
    requires s.m.consumers[k].at.Reading? && |s.m.consumers[k].at.out| == c.words
    requires Shape(c, Next(c, s, Advance(k)))
    ensures var s' := Next(c, s, Advance(k));
      forall t :: s.m.enqueueTicket - c.capacity <= t < s.m.enqueueTicket ==> SlotOk(c, s', t)
  {
    var s' := Next(c, s, Advance(k));
    var mine := s.m.consumers[k].held.ticket;
    assert ConsumerOk(c, s, k);
    LiveWindow(c, s, mine);
    forall t | s.m.enqueueTicket - c.capacity <= t < s.m.enqueueTicket ensures SlotOk(c, s', t) {
      assert SlotOk(c, s, t);
      assert InProgress(c, s', t) == InProgress(c, s, t);
    }
  }

  lemma {:induction false} DelivererOk(c: Config, s: State, k: nat)
    requires Inv(c, s) && k < c.consumers
    requires s.m.consumers[k].at.Reading? && |s.m.consumers[k].at.out| == c.words
    requires Shape(c, Next(c, s, Advance(k)))
    ensures ConsumerOk(c, Next(c, s, Advance(k)), k)
  {
    var mine, out := s.m.consumers[k].held.ticket, s.m.consumers[k].at.out;
    assert ConsumerOk(c, s, k);
    assert s.l.frames[mine][..|out|] == s.l.frames[mine];
  }

  lemma FreeRecorded(c: Config, s: State, k: nat)
    requires Inv(c, s) && k < c.consumers
    requires s.m.consumers[k].at.Reading? && |s.m.consumers[k].at.out| == c.words
    requires Shape(c, Next(c, s, Advance(k)))
    ensures FreedRecorded(c, Next(c, s, Advance(k)))
  {
    var s' := Next(c, s, Advance(k));
    assert ConsumerOk(c, s, k);
    var mine := s.m.consumers[k].held.ticket;
    var old', new' := s.l.outcomes[k].tickets, s'.l.outcomes[k].tickets;
    assert new' == old' + [mine];
    forall t | t in s'.l.freed ensures t in s'.l.outcomes[s'.l.claimants[t]].tickets {
      if t == mine {
        assert new'[|old'|] == mine;
      } else {
        assert t in s.l.outcomes[s.l.claimants[t]].tickets;
      }
    }
  }

  lemma {:induction false} PushKeeps(c: Config, s: State, p: nat, frame: Frame)
    requires Inv(c, s)
    ensures Inv(c, Next(c, s, Push(p, frame)))
  {
    if p < c.threads && s.m.producers[p].Idle? && |frame| == c.words {
      ProducerMoves(c, s, Next(c, s, Push(p, frame)), p);
    }
  }

  lemma {:induction false} PullKeeps(c: Config, s: State, k: nat, a: Action)
    requires Inv(c, s) && (a == Pull(k) || a == AskDrained(k))
    ensures Inv(c, Next(c, s, a))
  {
    if k < c.consumers {
      assert ConsumerOk(c, s, k);
      ConsumerMoves(c, s, Next(c, s, a), k);
    }
  }

  lemma {:induction false} CloseKeeps(c: Config, s: State)
    requires Inv(c, s)
    ensures Inv(c, Next(c, s, Close))
  {
    var s' := Next(c, s, Close);
    SlotsSame(c, s, s');
    forall q: nat | q < c.threads ensures ProducerOk(c, s', q) {
      assert ProducerOk(c, s, q);
    }
    forall j: nat | j < c.consumers ensures ConsumerOk(c, s', j) {
      assert ConsumerOk(c, s, j);
    }
    forall d | 0 <= d < s.m.dequeueTicket ensures ClaimCovered(c, s', d) {
      assert ClaimCovered(c, s, d);
    }
  }

  lemma {:induction false} RunKeeps(c: Config, actions: seq<Action>)
    requires c.Valid() && c.arith.Unbounded? && c.threads <= c.producerCount
    ensures Inv(c, Run(c, actions))
    decreases |actions|
  {
    if actions == [] {
      InitOk(c);
    } else {
      var s, a := Run(c, actions[..|actions| - 1]), actions[|actions| - 1];
      RunKeeps(c, actions[..|actions| - 1]);
      match a
      case Resume(p) => if p < c.threads { ProducerKeeps(c, s, p); }
      case Advance(k) => if k < c.consumers { ConsumerKeeps(c, s, k); }
      case Close => CloseKeeps(c, s);
      case Push(p, frame) => PushKeeps(c, s, p, frame);
      case _ => PullKeeps(c, s, a.k, a);
    }
  }
}
