/** With tickets that never wrap: however far the producer laps a reader in the middle of a read, SpmcRing never
    returns a torn frame, and every ticket a reader passes is either delivered once or counted lost once. */
module BroadcastSafety {
  import opened Tickets
  import opened BroadcastRing

  /** The tickets whose slot has been opened for writing. */
  ghost predicate ProducerOk(c: Config, s: State) {
    && s.m.writeTicket >= 0
    && (forall t :: 0 <= t < |s.l.pushed| ==> |s.l.pushed[t]| == c.words)
    && match s.m.producer
       case Idle => |s.l.pushed| == s.m.writeTicket
       case LoadedTicket(_, t) => t == s.m.writeTicket == |s.l.pushed|
       case Writing(f, t, _) => t == s.m.writeTicket == |s.l.pushed| - 1 && s.l.pushed[t] == f
       case Advancing(t) => t == s.m.writeTicket == |s.l.pushed| - 1
  }

  /** Slots are stamped by the newest ticket opened there; a completed stamp means a whole frame. */
  ghost predicate SlotOk(c: Config, s: State, t: int)
    requires s.m.Shaped(c) && t < |s.l.pushed|
  {
    var slot, n := c.Slot(t), |s.l.pushed|;
    if s.m.producer.Writing? && t == n - 1 then
      && s.m.gen[slot] == Busy(t)
      && s.m.payload[slot][..s.m.producer.done] == s.m.producer.frame[..s.m.producer.done]
    else
      s.m.gen[slot] == Complete(t) && (t >= 0 ==> s.m.payload[slot] == s.l.pushed[t])
  }

  /** How far a reader's accounting has got: everything below is delivered or counted lost. */
  function Cursor(r: Reader): int {
    match r.at
    case AtGate(_, head) => head
    case Reading(head, _, _) => head
    case CountingTorn(head) => head
    case CountingDrop(head) => head
    case Storing(head, _) => head
    case StoringSkip(head) => head + 1
    case StoringCatchUp(head) => head
    case _ => r.dequeuePos
  }

  /** Tickets below the cursor split exactly into delivered and lost ones. */
  ghost predicate Accounted(o: Outcome, dropped: int, cursor: int) {
    && 0 <= cursor
    && |o.tickets| == |o.frames|
    && (forall i, j :: 0 <= i < j < |o.tickets| ==> o.tickets[i] < o.tickets[j])
    && (forall t :: t in o.tickets || t in o.lost <==> 0 <= t < cursor)
    && (forall t :: !(t in o.tickets && t in o.lost))
    && |o.lost| == dropped
  }

  ghost predicate PositionOk(c: Config, s: State, r: Reader)
    requires s.m.Shaped(c)
  {
    var n := |s.l.pushed|;
    match r.at
    case Resting => true
    case LoadedHead(head) => head == r.dequeuePos
    case CountingLoss(start, target, lost) =>
      start == r.dequeuePos < target && target + c.capacity <= n && lost == target - start
    case AtGate(start, head) => start == r.dequeuePos <= head <= n
    case Reading(head, seq1, out) =>
      && 0 <= r.dequeuePos <= head < n && seq1 == Complete(head) && |out| <= |s.l.pushed[head]|
      && s.m.gen[c.Slot(head)] >= Complete(head) && s.m.gen[c.Slot(head)] != Busy(head)
      && (s.m.gen[c.Slot(head)] == Complete(head) ==> out == s.l.pushed[head][..|out|])
    case CountingTorn(head) => r.dequeuePos <= head && head + c.capacity < n
    case CountingDrop(head) => r.dequeuePos <= head && head + c.capacity < n
    case Storing(head, out) => 0 <= r.dequeuePos <= head < n && out == s.l.pushed[head]
    case StoringSkip(head) => r.dequeuePos <= head < n
    case StoringCatchUp(head) => r.dequeuePos <= head <= n
  }

  /** Every frame a reader was handed is the one pushed under that ticket. */
  ghost predicate FramesOk(pushed: seq<Frame>, o: Outcome) {
    forall i :: 0 <= i < |o.tickets| && i < |o.frames| ==>
      0 <= o.tickets[i] < |pushed| && o.frames[i] == pushed[o.tickets[i]]
  }

  /** A ticket counts as lost only once the ticket a full lap later has been opened in its slot. */
  ghost predicate LossesLapped(c: Config, pushed: seq<Frame>, o: Outcome) {
    forall t :: t in o.lost ==> t + c.capacity < |pushed|
  }

  /** A torn discard is counted in both lanes; `tornGuarded` runs ahead by one in between. */
  ghost predicate AccountOk(c: Config, pushed: seq<Frame>, r: Reader, o: Outcome) {
    && Accounted(o, r.dropped, Cursor(r))
    && FramesOk(pushed, o)
    && LossesLapped(c, pushed, o)
    && 0 <= r.tornGuarded <= r.dropped + if r.at.CountingDrop? then 1 else 0
  }

  ghost predicate ReaderOk(c: Config, s: State, k: int)
    requires s.m.Shaped(c) && |s.l.outcomes| == c.consumers && 0 <= k < c.consumers
  {
    var r := s.m.readers[k];
    && 0 <= r.dequeuePos <= |s.l.pushed|
    && PositionOk(c, s, r)
    && AccountOk(c, s.l.pushed, r, s.l.outcomes[k])
  }

  ghost predicate Inv(c: Config, s: State) {
    && c.arith.Unbounded? && s.m.Shaped(c) && |s.l.outcomes| == c.consumers
    && ProducerOk(c, s)
    && (forall t :: |s.l.pushed| - c.capacity <= t < |s.l.pushed| ==> SlotOk(c, s, t))
    && (forall k :: 0 <= k < c.consumers ==> ReaderOk(c, s, k))
  }

  lemma {:induction false} InitOk(c: Config)
    requires c.Valid() && c.arith.Unbounded?
    ensures Inv(c, Run(c, []))
  {
    var s := Run(c, []);
    assert s.m == InitLayout(c);
    forall t | 0 - c.capacity <= t < 0 ensures SlotOk(c, s, t) {
      NextLap(t, c.capacity);
      FirstLap(t + c.capacity, c.capacity);
    }
    forall k | 0 <= k < c.consumers ensures ReaderOk(c, s, k) {
      assert s.m.readers[k] == Reader(0, 0, 0, Resting);
      assert s.l.outcomes[k] == Outcome([], [], {});
    }
  }

  /** Nothing changes under a reader except that the next ticket's slot may have turned busy. */
  ghost predicate OnlyOpens(c: Config, s: State, s': State)
    requires s.m.Shaped(c) && s'.m.Shaped(c)
  {
    && s.l.pushed <= s'.l.pushed
    && forall slot :: 0 <= slot < c.capacity ==>
         s'.m.gen[slot] == s.m.gen[slot] || s.m.gen[slot] <= s'.m.gen[slot] == Busy(|s.l.pushed|)
  }

  lemma {:induction false} ReadersUndisturbed(c: Config, s: State, s': State)
    requires Inv(c, s) && s'.m.Shaped(c) && OnlyOpens(c, s, s')
    requires s'.m.readers == s.m.readers && s'.l.outcomes == s.l.outcomes
    ensures forall k :: 0 <= k < c.consumers ==> ReaderOk(c, s', k)
  {
    forall k | 0 <= k < c.consumers ensures ReaderOk(c, s', k) {
      assert ReaderOk(c, s, k);
    }
  }

  lemma {:induction false} ProducerKeeps(c: Config, s: State)
    requires Inv(c, s)
    ensures Inv(c, Next(c, s, Resume))
  {
    var s' := Next(c, s, Resume);
    match s.m.producer
    case Idle =>
    case LoadedTicket(_, _) => OpenKeeps(c, s);
    case Writing(_, _, k) =>
      if k < c.words {
        WriteKeeps(c, s);
      } else {
        CloseKeeps(c, s);
      }
    case Advancing(_) =>
      forall t | |s.l.pushed| - c.capacity <= t < |s.l.pushed| ensures SlotOk(c, s', t) {
        assert SlotOk(c, s, t);
      }
      ReadersUndisturbed(c, s, s');
  }

  lemma {:induction false} OpenKeeps(c: Config, s: State)
    requires Inv(c, s) && s.m.producer.LoadedTicket?
    ensures Inv(c, Next(c, s, Resume))
  {
    var s' := Next(c, s, Resume);
    var n := |s.l.pushed|;
    WindowDistinct(n + 1 - c.capacity, c.capacity);
    NextLap(n - c.capacity, c.capacity);
    assert SlotOk(c, s, n - c.capacity);
    forall t | n + 1 - c.capacity <= t < n + 1 ensures SlotOk(c, s', t) {
      if t < n {
        assert SlotOk(c, s, t);
        assert c.Slot(t) != c.Slot(n);
      }
    }
    ReadersUndisturbed(c, s, s');
  }

  /** Payload words move only while the slot is stamped busy, so a reader that still finds its own
      completed stamp has read nothing but its own ticket's words. */
  lemma {:induction false} WriteKeeps(c: Config, s: State)
    requires Inv(c, s) && s.m.producer.Writing? && s.m.producer.done < c.words
    ensures Inv(c, Next(c, s, Resume))
  {
    var s' := Next(c, s, Resume);
    var n, k, frame := |s.l.pushed|, s.m.producer.done, s.m.producer.frame;
    var mine := c.Slot(n - 1);
    WindowDistinct(n - c.capacity, c.capacity);
    assert SlotOk(c, s, n - 1);
    var row := s.m.payload[mine][k := frame[k]];
    assert row[..k + 1] == s.m.payload[mine][..k] + [frame[k]] == frame[..k + 1];
    forall t | n - c.capacity <= t < n ensures SlotOk(c, s', t) {
      assert SlotOk(c, s, t);
      if t != n - 1 {
        assert c.Slot(t) != mine;
      }
    }
    ReadersUndisturbed(c, s, s');
  }

  lemma {:induction false} CloseKeeps(c: Config, s: State)
    requires Inv(c, s) && s.m.producer.Writing? && s.m.producer.done == c.words
    ensures Inv(c, Next(c, s, Resume))
  {
    var s' := Next(c, s, Resume);
    var n := |s.l.pushed|;
    WindowDistinct(n - c.capacity, c.capacity);
    assert SlotOk(c, s, n - 1);
    forall t | n - c.capacity <= t < n ensures SlotOk(c, s', t) {
      assert SlotOk(c, s, t);
      if t != n - 1 {
        assert c.Slot(t) != c.Slot(n - 1);
      }
    }
    CloseReaders(c, s);
  }

  /** No reader can be inside the slot whose write completes: it never saw this ticket complete. */
  lemma {:induction false} CloseReaders(c: Config, s: State)
    requires Inv(c, s) && s.m.producer.Writing? && s.m.producer.done == c.words
    ensures forall k :: 0 <= k < c.consumers ==> ReaderOk(c, Next(c, s, Resume), k)
  {
    var n := |s.l.pushed|;
    assert SlotOk(c, s, n - 1);
    forall k | 0 <= k < c.consumers ensures ReaderOk(c, Next(c, s, Resume), k) {
      assert ReaderOk(c, s, k);
    }
  }

  lemma {:induction false} ReaderKeeps(c: Config, s: State, k: nat)
    requires Inv(c, s) && k < c.consumers
    ensures ReaderOk(c, Next(c, s, Pull(k)), k)
  {
    var s' := Next(c, s, Pull(k));
    assert ReaderOk(c, s, k);
    PositionKeeps(c, s, k);
    AccountKeeps(c, s, k);
  }

  lemma {:induction false} PositionKeeps(c: Config, s: State, k: nat)
    requires Inv(c, s) && k < c.consumers
    ensures PositionOk(c, Next(c, s, Pull(k)), ReaderStep(c, s.m, s.m.readers[k]))
    ensures 0 <= ReaderStep(c, s.m, s.m.readers[k]).dequeuePos <= |s.l.pushed|
  {
    var r := s.m.readers[k];
    assert ReaderOk(c, s, k);
    match r.at
    case AtGate(_, head) => GateKeeps(c, s, head);
    case Reading(head, _, out) => ReadKeeps(c, s, k);
    case _ =>
  }

  /** Only the counting steps and the delivering store move a reader's account. */
  lemma {:induction false} AccountKeeps(c: Config, s: State, k: nat)
    requires c.arith.Unbounded? && s.m.Shaped(c) && |s.l.outcomes| == c.consumers
    requires k < c.consumers && ReaderOk(c, s, k)
    ensures AccountOk(c, s.l.pushed, ReaderStep(c, s.m, s.m.readers[k]),
                      RecordReader(s.l.outcomes[k], s.m.readers[k].at))
  {
    match s.m.readers[k].at
    case CountingLoss(_, _, _) => LossAccount(c, s, k);
    case CountingDrop(_) => DropAccount(c, s, k);
    case Storing(_, _) => DeliveryAccount(c, s, k);
    case _ => OtherwiseSame(c, s, k);
  }

  lemma LossAccount(c: Config, s: State, k: nat)
    requires c.arith.Unbounded? && s.m.Shaped(c) && |s.l.outcomes| == c.consumers
    requires k < c.consumers && ReaderOk(c, s, k)
    requires s.m.readers[k].at.CountingLoss?
    ensures AccountOk(c, s.l.pushed, ReaderStep(c, s.m, s.m.readers[k]),
                      RecordReader(s.l.outcomes[k], s.m.readers[k].at))
  {
    var r, o := s.m.readers[k], s.l.outcomes[k];
    LossKeeps(o, r.dropped, r.at.start, r.at.target);
  }

  lemma DropAccount(c: Config, s: State, k: nat)
    requires c.arith.Unbounded? && s.m.Shaped(c) && |s.l.outcomes| == c.consumers
    requires k < c.consumers && ReaderOk(c, s, k)
    requires s.m.readers[k].at.CountingDrop?
    ensures AccountOk(c, s.l.pushed, ReaderStep(c, s.m, s.m.readers[k]),
                      RecordReader(s.l.outcomes[k], s.m.readers[k].at))
  {
    var r, o := s.m.readers[k], s.l.outcomes[k];
    DropKeeps(o, r.dropped, r.at.head);
  }

  lemma DeliveryAccount(c: Config, s: State, k: nat)
    requires c.arith.Unbounded? && s.m.Shaped(c) && |s.l.outcomes| == c.consumers
    requires k < c.consumers && ReaderOk(c, s, k)
    requires s.m.readers[k].at.Storing?
    ensures AccountOk(c, s.l.pushed, ReaderStep(c, s.m, s.m.readers[k]),
                      RecordReader(s.l.outcomes[k], s.m.readers[k].at))
  {
    var r, o := s.m.readers[k], s.l.outcomes[k];
    DeliveryKeeps(o, r.dropped, r.at.head, r.at.frame);
  }

  lemma OtherwiseSame(c: Config, s: State, k: nat)
    requires c.arith.Unbounded? && s.m.Shaped(c) && |s.l.outcomes| == c.consumers
    requires k < c.consumers && ReaderOk(c, s, k)
    requires var at := s.m.readers[k].at; !at.CountingLoss? && !at.CountingDrop? && !at.Storing?
    ensures AccountOk(c, s.l.pushed, ReaderStep(c, s.m, s.m.readers[k]),
                      RecordReader(s.l.outcomes[k], s.m.readers[k].at))
  {
    assert Cursor(ReaderStep(c, s.m, s.m.readers[k])) == Cursor(s.m.readers[k]);
  }

  lemma DropKeeps(o: Outcome, dropped: int, head: int)
    requires Accounted(o, dropped, head)
    ensures Accounted(o.(lost := o.lost + {head}), dropped + 1, head + 1)
  {
  }

  /** A stamp at least two above the head's means the head's slot has been lapped. */
  lemma GateKeeps(c: Config, s: State, head: int)
    requires Inv(c, s) && 0 <= head <= |s.l.pushed|
    ensures s.m.gen[c.Slot(head)] >= Complete(head) ==> head < |s.l.pushed|
    ensures s.m.gen[c.Slot(head)] >= Complete(head) + 2 ==> head + c.capacity < |s.l.pushed|
  {
    var n := |s.l.pushed|;
    if head == n {
      NextLap(n - c.capacity, c.capacity);
      assert SlotOk(c, s, n - c.capacity);
    } else if head >= n - c.capacity {
      assert SlotOk(c, s, head);
    }
  }

  lemma {:induction false} ReadKeeps(c: Config, s: State, k: nat)
    requires Inv(c, s) && k < c.consumers && s.m.readers[k].at.Reading?
    ensures PositionOk(c, Next(c, s, Pull(k)), ReaderStep(c, s.m, s.m.readers[k]))
  {
    var r, n := s.m.readers[k], |s.l.pushed|;
    assert ReaderOk(c, s, k);
    var Reading(head, seq1, out) := r.at;
    if s.m.gen[c.Slot(head)] == Complete(head) {
      StampOf(c, s, head);
      assert SlotOk(c, s, head);
      var row := s.l.pushed[head];
      if |out| < c.words {
        assert row[..|out| + 1] == row[..|out|] + [row[|out|]];
      } else {
        assert row[..|out|] == row;
      }
    } else {
      GateKeeps(c, s, head);
    }
  }

  /** A ticket whose completed stamp is in its slot is still in the live window. */
  lemma StampOf(c: Config, s: State, head: int)
    requires Inv(c, s) && 0 <= head < |s.l.pushed|
    ensures s.m.gen[c.Slot(head)] == Complete(head) ==> head >= |s.l.pushed| - c.capacity
  {
    var n := |s.l.pushed|;
    if head < n - c.capacity {
      var t := LiveTicket(c, n, head);
      assert SlotOk(c, s, t);
    }
  }

  /** The ticket of the live window that shares head's slot. */
  lemma {:induction false} LiveTicket(c: Config, n: int, head: int) returns (t: int)
    requires c.Valid() && c.arith.Unbounded? && head < n
    ensures n - c.capacity <= t < n && c.Slot(t) == c.Slot(head) && t >= head
    decreases n - head
  {
    if head >= n - c.capacity {
      t := head;
    } else {
      NextLap(head, c.capacity);
      t := LiveTicket(c, n, head + c.capacity);
    }
  }

  lemma {:induction false} LossKeeps(o: Outcome, dropped: int, start: int, target: int)
    requires start < target && Accounted(o, dropped, start)
    ensures Accounted(o.(lost := o.lost + Span(start, target)), dropped + (target - start), target)
  {
    assert o.lost * Span(start, target) == {};
    assert |o.lost + Span(start, target)| == |o.lost| + |Span(start, target)|;
  }

  lemma {:induction false} DeliveryKeeps(o: Outcome, dropped: int, head: int, out: Frame)
    requires Accounted(o, dropped, head)
    ensures Accounted(o.(tickets := o.tickets + [head], frames := o.frames + [out]), dropped, head + 1)
  {
    var o' := o.(tickets := o.tickets + [head], frames := o.frames + [out]);
    forall i | 0 <= i < |o.tickets| ensures o.tickets[i] < head {
      assert o.tickets[i] in o.tickets;
    }
    forall t ensures t in o'.tickets <==> t in o.tickets || t == head {
    }
  }

  lemma {:induction false} StepKeeps(c: Config, s: State, a: Action)
    requires Inv(c, s)
    ensures Inv(c, Next(c, s, a))
  {
    var s' := Next(c, s, a);
    match a
    case Push(_) =>
      forall t | |s.l.pushed| - c.capacity <= t < |s.l.pushed| ensures SlotOk(c, s', t) {
        assert SlotOk(c, s, t);
      }
      ReadersUndisturbed(c, s, s');
    case Resume => ProducerKeeps(c, s);
    case Pull(r) =>
      if r < c.consumers {
        ReaderKeeps(c, s, r);
        forall t | |s.l.pushed| - c.capacity <= t < |s.l.pushed| ensures SlotOk(c, s', t) {
          assert SlotOk(c, s, t);
        }
        forall k | 0 <= k < c.consumers && k != r ensures ReaderOk(c, s', k) {
          assert ReaderOk(c, s, k);
        }
      }
  }

  lemma {:induction false} RunKeeps(c: Config, actions: seq<Action>)
    requires c.Valid() && c.arith.Unbounded?
    ensures Inv(c, Run(c, actions))
    decreases |actions|
  {
    if actions == [] {
      InitOk(c);
    } else {
      RunKeeps(c, actions[..|actions| - 1]);
      StepKeeps(c, Run(c, actions[..|actions| - 1]), actions[|actions| - 1]);
    }
  }

  /** Increasing tickets and the lost set, together exactly [0, n), are n in number. */
  lemma {:induction false} CountDelivered(tickets: seq<int>, lost: set<int>, n: nat)
    requires forall i, j :: 0 <= i < j < |tickets| ==> tickets[i] < tickets[j]
    requires forall t :: t in tickets || t in lost <==> 0 <= t < n
    requires forall t :: !(t in tickets && t in lost)
    ensures |tickets| + |lost| == n
  {
    var delivered := Elements(tickets);
    assert delivered * lost == {};
    forall t ensures t in delivered + lost <==> t in Span(0, n) {
      assert t in delivered <==> t in tickets;
    }
    assert delivered + lost == Span(0, n);
    assert |delivered + lost| == |delivered| + |lost|;
  }

  function Elements(tickets: seq<int>): (ts: set<int>)
    requires forall i, j :: 0 <= i < j < |tickets| ==> tickets[i] < tickets[j]
    ensures |ts| == |tickets| && forall t :: t in ts <==> t in tickets
  {
    if tickets == [] then {}
    else
      var last := tickets[|tickets| - 1];
      assert forall t :: t in tickets <==> t in tickets[..|tickets| - 1] || t == last;
      Elements(tickets[..|tickets| - 1]) + {last}
  }
}
