/** MpmcRing is safe with up to `producerCount` producers although its envelope check and its
    fetch-add are separate steps: nothing is overwritten, lost, repeated or torn, in any run. */
module FanInSafety {
  import opened Tickets
  import opened FanInRing
  import Pigeonhole

  /** Ticket t has been claimed and its producer has not yet stored its generation. */
  ghost predicate InProgress(c: Config, s: State, t: int)
    requires s.m.Shaped(c)
  {
    && 0 <= t < |s.l.owners|
    && s.l.owners[t] < c.threads
    && s.m.producers[s.l.owners[t]].Writing?
    && s.m.producers[s.l.owners[t]].ticket == t
  }

  ghost predicate Published(c: Config, s: State, t: int)
    requires s.m.Shaped(c)
  {
    0 <= t < |s.l.owners| && !InProgress(c, s, t)
  }

  ghost predicate OwnsOnlyBelow(s: State, p: nat, bound: int) {
    forall t :: 0 <= t < |s.l.owners| && s.l.owners[t] == p ==> t < bound
  }

  ghost predicate TicketsOk(c: Config, s: State) {
    && |s.l.owners| == |s.l.frames| == s.m.enqueueTicket
    && 0 <= s.m.dequeuePos <= s.m.enqueueTicket
    && Pigeonhole.Below(s.l.owners, c.threads)
    && (forall t :: 0 <= t < |s.l.frames| ==> |s.l.frames[t]| == c.words)
  }

  /** A producer claims again only after seeing its previous ticket inside the envelope. */
  ghost predicate ClaimsSpaced(c: Config, s: State) {
    forall i, j :: 0 <= i < j < |s.l.owners| && s.l.owners[i] == s.l.owners[j]
      ==> i < s.m.dequeuePos + c.capacity - c.producerCount
  }

  ghost predicate ProducerOk(c: Config, s: State, p: nat)
    requires s.m.Shaped(c) && TicketsOk(c, s) && p < c.threads
  {
    match s.m.producers[p]
    case Idle => true
    case Dropping(_) => true
    case LoadedTicket(_, w) => w <= s.m.enqueueTicket && OwnsOnlyBelow(s, p, w)
    case Admitted(_, w) =>
      w <= s.m.enqueueTicket && OwnsOnlyBelow(s, p, w) && w <= s.m.dequeuePos + c.capacity - c.producerCount
    case Writing(frame, t, k) =>
      && s.m.dequeuePos <= t < s.m.enqueueTicket
      && s.l.owners[t] == p && s.l.frames[t] == frame
      && s.m.payload[c.arith.Slot(t, c.capacity)][..k] == frame[..k]
  }

  /** What slot t mod capacity holds for each t of the window [dequeuePos, dequeuePos + capacity). */
  ghost predicate SlotOk(c: Config, s: State, t: int)
    requires s.m.Shaped(c) && TicketsOk(c, s)
  {
    var slot := c.arith.Slot(t, c.capacity);
    if Published(c, s, t) then s.m.gen[slot] == t && s.m.payload[slot] == s.l.frames[t]
    else s.m.gen[slot] == t - c.capacity
  }

  ghost predicate ConsumerOk(c: Config, s: State)
    requires s.m.Shaped(c) && TicketsOk(c, s)
  {
    match s.m.consumer
    case Resting => true
    case LoadedHead(head) => head == s.m.dequeuePos
    case AtGate(start, head) => start == head == s.m.dequeuePos
    case Reading(head, out) =>
      && head == s.m.dequeuePos && Published(c, s, head)
      && out == s.l.frames[head][..|out|]
    case _ => false
  }

  ghost predicate Inv(c: Config, s: State) {
    && c.arith.Unbounded? && c.threads <= c.producerCount
    && s.m.Shaped(c)
    && TicketsOk(c, s)
    && s.m.enqueueTicket <= s.m.dequeuePos + c.capacity
    && ClaimsSpaced(c, s)
    && (forall p: nat :: p < c.threads ==> ProducerOk(c, s, p))
    && (forall t :: s.m.dequeuePos <= t < s.m.dequeuePos + c.capacity ==> SlotOk(c, s, t))
    && ConsumerOk(c, s)
    && s.m.overrunLost == 0 && s.m.tornFrames == 0
    && s.l.delivered == s.l.frames[..s.m.dequeuePos]
  }

  function Next(c: Config, s: State, a: Action): State
    requires s.m.Shaped(c)
  {
    State(Step(c, s.m, a), Record(c, s.m, s.l, a))
  }

  lemma {:induction false} InitOk(c: Config)
    requires c.Valid() && c.arith.Unbounded? && c.threads <= c.producerCount
    ensures Inv(c, Run(c, []))
  {
    var s := Run(c, []);
    assert s.m == InitLayout(c);
    forall t | 0 <= t < c.capacity ensures SlotOk(c, s, t) {
      FirstLap(t, c.capacity);
    }
  }

  /** The envelope survives the unfused claim: among the last producers + 1 tickets two would share
      an owner, and the older of two such tickets is already inside the envelope. */
  lemma {:induction false} EnvelopeAfterClaim(c: Config, owners: seq<nat>, dequeuePos: nat)
    requires c.Valid() && c.threads <= c.producerCount && Pigeonhole.Below(owners, c.threads)
    requires forall i, j :: 0 <= i < j < |owners| && owners[i] == owners[j]
               ==> i < dequeuePos + c.capacity - c.producerCount
    ensures |owners| <= dequeuePos + c.capacity
  {
    var lo := dequeuePos + c.capacity - c.producerCount;
    if lo <= |owners| {
      Pigeonhole.AtMostOneEach(owners, lo, c.threads);
    }
  }

  lemma {:induction false} ProducerKeeps(c: Config, s: State, p: nat)
    requires Inv(c, s) && p < c.threads
    ensures Inv(c, Next(c, s, Resume(p)))
  {
    var s' := Next(c, s, Resume(p));
    assert ProducerOk(c, s, p);
    match s.m.producers[p]
    case Idle =>
    case LoadedTicket(_, _) => SameTickets(c, s, s');
    case Dropping(_) => SameTickets(c, s, s');
    case Admitted(_, _) => ClaimKeeps(c, s, p);
    case Writing(_, _, k) =>
      if k < c.words {
        WriteKeeps(c, s, p);
      } else {
        PublishKeeps(c, s, p);
      }
  }

  /** A step that changes one producer's private variables outside `Writing` disturbs no slot. */
  lemma SameTickets(c: Config, s: State, s': State)
    requires Inv(c, s) && s'.m.Shaped(c)
    requires s'.l.(attempts := 0) == s.l.(attempts := 0)
    requires s'.m.(producers := [], droppedFrames := 0) == s.m.(producers := [], droppedFrames := 0)
    requires forall q: nat :: q < c.threads ==>
               s'.m.producers[q] == s.m.producers[q]
               || (!s.m.producers[q].Writing? && !s'.m.producers[q].Writing? && ProducerOk(c, s', q))
    ensures Inv(c, s')
  {
    forall t ensures InProgress(c, s', t) == InProgress(c, s, t) {
    }
    forall t | s.m.dequeuePos <= t < s.m.dequeuePos + c.capacity ensures SlotOk(c, s', t) {
      assert SlotOk(c, s, t);
    }
    forall q: nat | q < c.threads ensures ProducerOk(c, s', q) {
      assert ProducerOk(c, s, q);
    }
  }

  lemma {:induction false} ClaimKeeps(c: Config, s: State, p: nat)
    requires Inv(c, s) && p < c.threads && s.m.producers[p].Admitted?
    ensures Inv(c, Next(c, s, Resume(p)))
  {
    var s' := Next(c, s, Resume(p));
    var w := s.m.enqueueTicket;
    assert ProducerOk(c, s, p);
    EnvelopeAfterClaim(c, s'.l.owners, s'.m.dequeuePos);
    forall t | t != w ensures InProgress(c, s', t) == InProgress(c, s, t) {
    }
    assert InProgress(c, s', w);
    forall t | s.m.dequeuePos <= t < s.m.dequeuePos + c.capacity ensures SlotOk(c, s', t) {
      assert SlotOk(c, s, t);
    }
    forall q: nat | q < c.threads ensures ProducerOk(c, s', q) {
      assert ProducerOk(c, s, q);
    }
    assert s'.l.frames[..s.m.dequeuePos] == s.l.frames[..s.m.dequeuePos];
  }

  /** A payload write touches only the slot of the writer's own, still unpublished ticket. */
  lemma {:induction false} WriteKeeps(c: Config, s: State, p: nat)
    requires Inv(c, s) && p < c.threads
    requires s.m.producers[p].Writing? && s.m.producers[p].done < c.words
    ensures Inv(c, Next(c, s, Resume(p)))
  {
    var s' := Next(c, s, Resume(p));
    assert ProducerOk(c, s, p);
    var mine := s.m.producers[p].ticket;
    OtherSlots(c, s, mine);
    forall t ensures InProgress(c, s', t) == InProgress(c, s, t) {
    }
    assert InProgress(c, s, mine);
    forall t | s.m.dequeuePos <= t < s.m.dequeuePos + c.capacity ensures SlotOk(c, s', t) {
      assert SlotOk(c, s, t);
    }
    forall q: nat | q < c.threads ensures ProducerOk(c, s', q) {
      assert ProducerOk(c, s, q);
      if q == p {
        WordWritten(c, s, p);
      }
    }
  }

  lemma OtherSlots(c: Config, s: State, mine: int)
    requires Inv(c, s) && s.m.dequeuePos <= mine < s.m.dequeuePos + c.capacity
    ensures forall t :: s.m.dequeuePos <= t < s.m.dequeuePos + c.capacity && t != mine
              ==> c.arith.Slot(t, c.capacity) != c.arith.Slot(mine, c.capacity)
  {
    WindowDistinct(s.m.dequeuePos, c.capacity);
  }

  lemma WordWritten(c: Config, s: State, p: nat)
    requires Inv(c, s) && p < c.threads
    requires s.m.producers[p].Writing? && s.m.producers[p].done < c.words
    ensures ProducerOk(c, Next(c, s, Resume(p)), p)
  {
    assert ProducerOk(c, s, p);
    var Writing(frame, t, k) := s.m.producers[p];
    var slot := c.arith.Slot(t, c.capacity);
    var row := s.m.payload[slot][k := frame[k]];
    assert row[..k + 1] == s.m.payload[slot][..k] + [frame[k]] == frame[..k + 1];
  }

  lemma {:induction false} PublishKeeps(c: Config, s: State, p: nat)
    requires Inv(c, s) && p < c.threads
    requires s.m.producers[p].Writing? && s.m.producers[p].done == c.words
    ensures Inv(c, Next(c, s, Resume(p)))
  {
    var s' := Next(c, s, Resume(p));
    assert ProducerOk(c, s, p);
    var mine := s.m.producers[p].ticket;
    OtherSlots(c, s, mine);
    forall t | t != mine ensures InProgress(c, s', t) == InProgress(c, s, t) {
    }
    forall t | s.m.dequeuePos <= t < s.m.dequeuePos + c.capacity ensures SlotOk(c, s', t) {
      assert SlotOk(c, s, t);
    }
    forall q: nat | q < c.threads ensures ProducerOk(c, s', q) {
      assert ProducerOk(c, s, q);
    }
  }

  lemma {:induction false} ConsumerKeeps(c: Config, s: State)
    requires Inv(c, s)
    ensures Inv(c, Next(c, s, Pull))
  {
    var s' := Next(c, s, Pull);
    var d := s.m.dequeuePos;
    assert SlotOk(c, s, d);
    if s.m.consumer.Reading? && |s.m.consumer.out| == c.words {
      DeliverKeeps(c, s);
    } else {
      forall t ensures InProgress(c, s', t) == InProgress(c, s, t) {
      }
      forall t | d <= t < d + c.capacity ensures SlotOk(c, s', t) {
        assert SlotOk(c, s, t);
      }
      forall q: nat | q < c.threads ensures ProducerOk(c, s', q) {
        assert ProducerOk(c, s, q);
      }
    }
  }

  lemma {:induction false} DeliverKeeps(c: Config, s: State)
    requires Inv(c, s) && s.m.consumer.Reading? && |s.m.consumer.out| == c.words
    ensures Inv(c, Next(c, s, Pull))
  {
    var s' := Next(c, s, Pull);
    var d := s.m.dequeuePos;
    assert s'.m == s.m.(dequeuePos := d + 1, consumer := Resting);
    forall t ensures InProgress(c, s', t) == InProgress(c, s, t) {
    }
    assert SlotOk(c, s, d);
    NextLap(d, c.capacity);
    forall t | d + 1 <= t < d + 1 + c.capacity ensures SlotOk(c, s', t) {
      if t < d + c.capacity {
        assert SlotOk(c, s, t);
      }
    }
    forall q: nat | q < c.threads ensures ProducerOk(c, s', q) {
      assert ProducerOk(c, s, q);
      assert !InProgress(c, s, d);
    }
    assert s.l.frames[..d + 1] == s.l.frames[..d] + [s.l.frames[d]];
    assert s.l.frames[d][..c.words] == s.l.frames[d];
  }

  lemma {:induction false} StepKeeps(c: Config, s: State, a: Action)
    requires Inv(c, s)
    ensures Inv(c, Next(c, s, a))
  {
    match a
    case Push(_, _) => SameTickets(c, s, Next(c, s, a));
    case Resume(p) =>
      if p < c.threads {
        ProducerKeeps(c, s, p);
      }
    case Pull => ConsumerKeeps(c, s);
  }

  lemma {:induction false} RunKeeps(c: Config, actions: seq<Action>)
    requires c.Valid() && c.arith.Unbounded? && c.threads <= c.producerCount
    ensures Inv(c, Run(c, actions))
    decreases |actions|
  {
    if actions == [] {
      InitOk(c);
    } else {
      RunKeeps(c, actions[..|actions| - 1]);
      StepKeeps(c, Run(c, actions[..|actions| - 1]), actions[|actions| - 1]);
    }
  }
}
