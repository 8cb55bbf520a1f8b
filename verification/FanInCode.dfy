/** MpmcRing's `push` and `pull` as written, over shared lanes that any other thread may change between two of
    their steps. Every execution is shown to be a run of the fan-in machine. */
module FanInCode {
  import opened Tickets
  import opened FanInRing
  import Theorems = FanInTheorems
  import FanInLanes
  import FanInWrap
  import Int32

  /** The threads: producer p, or the one consumer. */
  datatype Thread = Pusher(p: nat) | Puller

  predicate By(a: Action, t: Thread) {
    match a
    case Push(p, _) => t == Pusher(p)
    case Resume(p) => t == Pusher(p)
    case Pull => t == Puller
  }

  predicate NoneBy(actions: seq<Action>, t: Thread) {
    forall i :: 0 <= i < |actions| ==> !By(actions[i], t)
  }

  /** What other threads cannot change about thread t, and what nobody can undo. */
  ghost predicate Untouched(c: Config, s: State, s': State, t: Thread) {
    && s.m.Shaped(c) && s'.m.Shaped(c)
    && (t.Pusher? && t.p < c.threads ==> s'.m.producers[t.p] == s.m.producers[t.p])
    && (t.Puller? ==> s'.m.consumer == s.m.consumer && s'.l.delivered == s.l.delivered
                      && s'.m.dequeuePos == s.m.dequeuePos)
    && s.l.frames <= s'.l.frames && |s.l.owners| <= |s'.l.owners|
  }

  function After(c: Config, s: State, a: Action): (s': State)
    requires s.m.Shaped(c)
    ensures s'.m.Shaped(c)
  {
    State(Step(c, s.m, a), Record(c, s.m, s.l, a))
  }

  lemma OtherStep(c: Config, s: State, a: Action, t: Thread)
    requires s.m.Shaped(c) && !By(a, t)
    ensures Untouched(c, s, After(c, s, a), t)
  {
  }

  lemma RunMore(c: Config, actions: seq<Action>, a: Action)
    requires c.Valid()
    ensures Run(c, actions + [a]) == After(c, Run(c, actions), a)
  {
    assert (actions + [a])[..|actions|] == actions;
  }

  lemma {:induction false} OthersKeep(c: Config, actions: seq<Action>, more: seq<Action>, t: Thread)
    requires c.Valid() && NoneBy(more, t)
    ensures Untouched(c, Run(c, actions), Run(c, actions + more), t)
    decreases |more|
  {
    if more == [] {
      assert actions + more == actions;
    } else {
      var n := |more| - 1;
      OthersKeep(c, actions, more[..n], t);
      assert actions + more == (actions + more[..n]) + [more[n]];
      RunMore(c, actions + more[..n], more[n]);
      OtherStep(c, Run(c, actions + more[..n]), more[n], t);
    }
  }

  class MpmcRing {
    const c: Config
    const gen: array<int>
    const payload: array<Frame>
    var enqueueTicket: int
    var dequeuePos: int
    var droppedFrames: int
    var overrunLost: int
    var tornFrames: int
    /** Every step that any thread has taken since the lanes were initialised. */
    ghost var actions: seq<Action>

    ghost function Now(): (s: State)
      requires c.Valid()
      reads this
      ensures s.m.Shaped(c)
    {
      Run(c, actions)
    }

    /** The lanes hold what the machine says. */
    ghost predicate Valid()
      reads this, gen, payload
    {
      && c.Valid() && gen.Length == payload.Length == c.capacity
      && var m := Now().m;
      && enqueueTicket == m.enqueueTicket && dequeuePos == m.dequeuePos && droppedFrames == m.droppedFrames
      && overrunLost == m.overrunLost && tornFrames == m.tornFrames
      && gen[..] == m.gen && payload[..] == m.payload
    }

    /** `initLayout` on a fresh buffer. */
    constructor (c: Config)
      requires c.Valid()
      ensures Valid() && actions == [] && this.c == c && fresh(gen) && fresh(payload)
    {
      this.c := c;
      enqueueTicket, dequeuePos, droppedFrames, overrunLost, tornFrames := 0, 0, 0, 0, 0;
      gen := new int[c.capacity](s => c.arith.Lane(s - c.capacity));
      payload := new Frame[c.capacity](_ => seq(c.words, _ => 0));
      actions := [];
      new;
      assert gen[..] == InitLayout(c).gen;
      assert payload[..] == InitLayout(c).payload;
    }

    /** The scheduler: any number of steps of any threads but t. A caller knows no more than this contract, so
        what it proves holds whatever the others do. */
    method Others(ghost t: Thread)
      requires Valid()
      modifies this, gen, payload
      ensures Valid()
      ensures old(actions) <= actions && NoneBy(actions[|old(actions)|..], t)
    {
    }

    method Yield(ghost t: Thread)
      requires Valid()
      modifies this, gen, payload
      ensures Valid() && old(actions) <= actions && Untouched(c, old(Now()), Now(), t)
    {
      ghost var before := actions;
      Others(t);
      OthersKeep(c, before, actions[|before|..], t);
      assert before + actions[|before|..] == actions;
    }

    /** Record the step that the surrounding statement performs. */
    ghost method Take(a: Action)
      requires c.Valid()
      modifies this`actions
      ensures actions == old(actions) + [a] && Now() == After(c, old(Now()), a)
      ensures actions[..|actions| - 1] == old(actions)
    {
      RunMore(c, actions, a);
      actions := actions + [a];
    }

    /** Where producer p stood before the last step of all. */
    ghost function LastFrom(p: nat): Producer
      requires c.Valid() && p < c.threads
      reads this
    {
      if actions == [] then Idle else Run(c, actions[..|actions| - 1]).m.producers[p]
    }

    // The steps of `push`, one `Atomics` call or payload word each

    method LoadEnqueueTicket(p: nat, ghost frame: Frame) returns (w: int)
      requires Valid() && p < c.threads && |frame| == c.words && Now().m.producers[p].Idle?
      modifies this`actions
      ensures Valid() && actions == old(actions) + [Action.Push(p, frame)]
      ensures Now().m.producers[p] == LoadedTicket(frame, w) && Now().l.frames == old(Now()).l.frames
    {
      w := enqueueTicket;
      ghost var before := Now();
      Take(Action.Push(p, frame));
      assert Now().m == before.m.(producers := before.m.producers[p := LoadedTicket(frame, w)]);
    }

    /** Load the cursor and apply the envelope test. */
    method IsFull(p: nat, ghost frame: Frame, w: int) returns (full: bool)
      requires Valid() && p < c.threads && Now().m.producers[p] == LoadedTicket(frame, w)
      modifies this`actions
      ensures Valid() && actions == old(actions) + [Resume(p)]
      ensures Now().m.producers[p] == (if full then Dropping(frame) else Admitted(frame, w))
      ensures Now().l == old(Now()).l
    {
      var r := dequeuePos;
      full := c.arith.Diff(w, r) >= c.capacity - c.Slack();
      Take(Resume(p));
    }

    method CountDrop(p: nat)
      requires Valid() && p < c.threads && Now().m.producers[p].Dropping?
      modifies this`actions, this`droppedFrames
      ensures Valid() && actions == old(actions) + [Resume(p)] && Now().m.producers[p].Idle?
      ensures LastFrom(p).Dropping?
    {
      droppedFrames := c.arith.Lane(droppedFrames + 1);
      Take(Resume(p));
    }

    method ClaimTicket(p: nat, ghost frame: Frame) returns (claimed: int)
      requires Valid() && p < c.threads && Now().m.producers[p].Admitted? && Now().m.producers[p].frame == frame
      modifies this`actions, this`enqueueTicket
      ensures Valid() && actions == old(actions) + [Resume(p)]
      ensures Now().m.producers[p] == Writing(frame, claimed, 0)
      ensures Now().l.frames == old(Now().l.frames) + [frame]
    {
      claimed := enqueueTicket;
      enqueueTicket := c.arith.Lane(enqueueTicket + 1);
      Take(Resume(p));
    }

    method WriteWord(p: nat, slot: nat, ghost frame: Frame, ghost claimed: int, i: nat, word: Word)
      requires Valid() && p < c.threads && i < c.words && Now().m.producers[p] == Writing(frame, claimed, i)
      requires slot == c.arith.Slot(claimed, c.capacity) && word == frame[i]
      modifies this`actions, payload
      ensures Valid() && actions == old(actions) + [Resume(p)]
      ensures Now().m.producers[p] == Writing(frame, claimed, i + 1) && Now().l == old(Now()).l
    {
      assert payload[..][slot] == Now().m.payload[slot];
      payload[slot] := payload[slot][i := word];
      Take(Resume(p));
      assert payload[..] == old(payload[..])[slot := payload[slot]];
    }

    method WritePayload(p: nat, frame: Frame, claimed: int, ghost ticket: nat)
      requires Valid() && p < c.threads && |frame| == c.words && Now().m.producers[p] == Writing(frame, claimed, 0)
      requires ticket < |Now().l.frames| && Now().l.frames[ticket] == frame
      modifies this, gen, payload
      ensures Valid() && old(actions) <= actions && Now().m.producers[p] == Writing(frame, claimed, c.words)
      ensures ticket < |Now().l.frames| && Now().l.frames[ticket] == frame
    {
      var slot := c.arith.Slot(claimed, c.capacity);
      for i := 0 to c.words
        invariant Valid() && old(actions) <= actions && Now().m.producers[p] == Writing(frame, claimed, i)
        invariant ticket < |Now().l.frames| && Now().l.frames[ticket] == frame
      {
        Yield(Pusher(p));
        WriteWord(p, slot, frame, claimed, i, frame[i]);
      }
    }

    method StoreGeneration(p: nat, slot: nat, ghost frame: Frame, claimed: int)
      requires Valid() && p < c.threads && Now().m.producers[p] == Writing(frame, claimed, c.words)
      requires slot == c.arith.Slot(claimed, c.capacity)
      modifies this`actions, gen
      ensures Valid() && actions == old(actions) + [Resume(p)] && Now().m.producers[p].Idle? && Now().l == old(Now()).l
    {
      gen[slot] := c.arith.Lane(claimed);
      Take(Resume(p));
      assert gen[..] == old(gen[..])[slot := gen[slot]];
    }

    /** The first half of `push`: both loads and the test between them and the claim. */
    method Admit(p: nat, frame: Frame) returns (full: bool)
      requires Valid() && p < c.threads && |frame| == c.words && Now().m.producers[p].Idle?
      modifies this, gen, payload
      ensures Valid() && old(actions) <= actions && old(Now()).l.frames <= Now().l.frames
      ensures var at := Now().m.producers[p];
        if full then at.Dropping? else at.Admitted? && at.frame == frame
    {
      var w := LoadEnqueueTicket(p, frame);
      Yield(Pusher(p));
      full := IsFull(p, frame, w);
      Yield(Pusher(p));
    }

    /** `push` by producer p. It returns true only after claiming a ticket, under which its frame was logged, and
        publishing it; and false only after counting a drop. */
    method Push(p: nat, frame: Frame) returns (ok: bool, ghost ticket: nat)
      requires Valid() && p < c.threads && |frame| == c.words && Now().m.producers[p].Idle?
      modifies this, gen, payload
      ensures Valid() && old(actions) <= actions && Now().m.producers[p].Idle?
      ensures ok ==> |old(Now().l.frames)| <= ticket < |Now().l.frames| && Now().l.frames[ticket] == frame
      ensures !ok ==> LastFrom(p).Dropping?
    {
      var full := Admit(p, frame);
      if full {
        CountDrop(p);
        return false, 0;
      }
      ticket := |Now().l.frames|;
      var claimed := ClaimTicket(p, frame);
      WritePayload(p, frame, claimed, ticket);
      Yield(Pusher(p));
      StoreGeneration(p, c.arith.Slot(claimed, c.capacity), frame, claimed);
      return true, ticket;
    }

    // The steps of `pull`

    method LoadHead() returns (head: int)
      requires Valid() && Now().m.consumer.Resting?
      modifies this`actions
      ensures Valid() && actions == old(actions) + [Action.Pull] && Now().m.consumer == LoadedHead(head)
      ensures Now().l == old(Now()).l
    {
      head := dequeuePos;
      ghost var before := Now();
      Take(Action.Pull);
      assert Now() == State(before.m.(consumer := LoadedHead(head)), before.l);
    }

    /** Load the ticket lane; `over` says that the overload net fires. */
    method LoadWindow(head: int) returns (over: bool, target: int, lost: int)
      requires Valid() && Now().m.consumer == LoadedHead(head)
      modifies this`actions
      ensures Valid() && actions == old(actions) + [Action.Pull] && Now().l == old(Now()).l
      ensures Now().m.consumer == if over then CountingLoss(head, target, lost) else AtGate(head, head)
    {
      var w := enqueueTicket;
      over, target, lost := c.arith.Diff(w, head) > c.capacity, c.arith.Lane(w - c.capacity), 0;
      if over {
        lost := c.arith.Diff(target, head);
      }
      Take(Action.Pull);
    }

    method AddLoss(ghost start: int, ghost target: int, lost: int)
      requires Valid() && Now().m.consumer == CountingLoss(start, target, lost)
      modifies this`actions, this`overrunLost
      ensures Valid() && actions == old(actions) + [Action.Pull] && Now().l == old(Now()).l
      ensures Now().m.consumer == AtGate(start, target)
    {
      if lost > 0 {
        overrunLost := c.arith.Lane(overrunLost + lost);
      }
      Take(Action.Pull);
    }

    method LoadGeneration(start: int, head: int) returns (d: int)
      requires Valid() && Now().m.consumer == AtGate(start, head)
      modifies this`actions
      ensures Valid() && actions == old(actions) + [Action.Pull] && Now().l == old(Now()).l
      ensures Now().m.consumer == if d == 0 then Reading(head, []) else if d > 0 then CountingOverrun(head)
                                  else if head != start then StoringCatchUp(head) else Resting
    {
      var slot := c.arith.Slot(head, c.capacity);
      assert gen[..][slot] == gen[slot];
      d := c.arith.Diff(gen[slot], head);
      Take(Action.Pull);
    }

    method ReadWord(head: int, out: Frame) returns (out': Frame)
      requires Valid() && Now().m.consumer == Reading(head, out) && |out| < c.words
      modifies this`actions
      ensures Valid() && actions == old(actions) + [Action.Pull] && Now().l == old(Now()).l
      ensures Now().m.consumer == Reading(head, out') && |out'| == |out| + 1
    {
      var slot := c.arith.Slot(head, c.capacity);
      assert payload[..][slot] == payload[slot];
      out' := out + [payload[slot][|out|]];
      Take(Action.Pull);
    }

    /** The cursor store that ends a delivery, a skip or a catch-up. */
    method StoreCursor(head: int, ghost delivers: bool)
      requires Valid() && var at := Now().m.consumer;
        || (at.Reading? && |at.out| == c.words && head == c.arith.Lane(at.head + 1) && delivers)
        || (at.SkippingHead? && head == c.arith.Lane(at.head + 1) && !delivers)
        || (at.StoringCatchUp? && head == at.head && !delivers)
      modifies this`actions, this`dequeuePos
      ensures Valid() && actions == old(actions) + [Action.Pull] && Now().m.consumer.Resting?
      ensures Now().l.delivered == old(Now()).l.delivered + if delivers then [old(Now()).m.consumer.out] else []
    {
      dequeuePos := head;
      Take(Action.Pull);
    }

    method CountOverrun(head: int)
      requires Valid() && Now().m.consumer == CountingOverrun(head)
      modifies this`actions, this`overrunLost
      ensures Valid() && actions == old(actions) + [Action.Pull] && Now().l == old(Now()).l
      ensures Now().m.consumer == CountingTorn(head)
    {
      overrunLost := c.arith.Lane(overrunLost + 1);
      Take(Action.Pull);
    }

    method CountTorn(head: int)
      requires Valid() && Now().m.consumer == CountingTorn(head)
      modifies this`actions, this`tornFrames
      ensures Valid() && actions == old(actions) + [Action.Pull] && Now().l == old(Now()).l
      ensures Now().m.consumer == SkippingHead(head)
    {
      tornFrames := c.arith.Lane(tornFrames + 1);
      Take(Action.Pull);
    }

    /** The first half of `pull`: up to the gate, with the overload net. */
    method Approach() returns (start: int, head: int)
      requires Valid() && Now().m.consumer.Resting?
      modifies this, gen, payload
      ensures Valid() && old(actions) <= actions && Now().l.delivered == old(Now()).l.delivered
      ensures Now().m.consumer == AtGate(start, head)
    {
      start := LoadHead();
      Yield(Puller);
      var over, target, lost := LoadWindow(start);
      head := start;
      if over {
        Yield(Puller);
        AddLoss(start, target, lost);
        head := target;
      }
      Yield(Puller);
    }

    method ReadPayload(head: int) returns (out: Frame)
      requires Valid() && Now().m.consumer == Reading(head, [])
      modifies this, gen, payload
      ensures Valid() && old(actions) <= actions && Now().l.delivered == old(Now()).l.delivered
      ensures |out| == c.words && Now().m.consumer == Reading(head, out)
    {
      out := [];
      while |out| < c.words
        invariant Valid() && old(actions) <= actions && Now().l.delivered == old(Now()).l.delivered
        invariant |out| <= c.words && Now().m.consumer == Reading(head, out)
      {
        Yield(Puller);
        out := ReadWord(head, out);
      }
    }

    /** Skip a head that a newer producer has overwritten. */
    method Skip(head: int)
      requires Valid() && Now().m.consumer == CountingOverrun(head)
      modifies this, gen, payload
      ensures Valid() && old(actions) <= actions && Now().l.delivered == old(Now()).l.delivered
      ensures Now().m.consumer.Resting?
    {
      CountOverrun(head);
      Yield(Puller);
      CountTorn(head);
      Yield(Puller);
      StoreCursor(c.arith.Lane(head + 1), false);
    }

    /** `pull`: it returns true exactly when it has delivered the frame it returns. */
    method Pull() returns (ok: bool, out: Frame)
      requires Valid() && Now().m.consumer.Resting?
      modifies this, gen, payload
      ensures Valid() && old(actions) <= actions && Now().m.consumer.Resting?
      ensures Now().l.delivered == old(Now()).l.delivered + if ok then [out] else []
    {
      var start, head := Approach();
      var d := LoadGeneration(start, head);
      if d == 0 {
        out := ReadPayload(head);
        Yield(Puller);
        StoreCursor(c.arith.Lane(head + 1), true);
        return true, out;
      }
      if d > 0 {
        Yield(Puller);
        Skip(head);
        return false, [];
      }
      if head != start {
        Yield(Puller);
        StoreCursor(head, false);
      }
      return false, [];
    }
  }

  /** Whatever the threads did, the lanes keep what MpmcRing promises. */
  lemma {:induction false} LanesKeepOrder(ring: MpmcRing)
    requires ring.Valid() && ring.c.arith.Unbounded? && ring.c.threads <= ring.c.producerCount
    ensures ring.overrunLost == 0 && ring.tornFrames == 0
    ensures 0 <= ring.dequeuePos <= ring.enqueueTicket <= ring.dequeuePos + ring.c.capacity
    ensures |ring.Now().l.frames| == ring.enqueueTicket
    ensures ring.Now().l.delivered == ring.Now().l.frames[..ring.dequeuePos]
  {
    Theorems.DeliversInTicketOrder(ring.c, ring.actions);
  }

  /** And so do Int32 lanes, over any number of wraps and however long any thread was parked. */
  lemma {:induction false} Int32LanesKeepOrder(ring: MpmcRing, k: nat)
    requires ring.Valid() && ring.c.arith.Wrapped? && ring.c.threads <= ring.c.producerCount
    requires FanInWrap.Accepted(ring.c.(arith := Unbounded), k)
    ensures ring.overrunLost == 0 && ring.tornFrames == 0
    ensures var l := ring.Now().l;
      && l.delivered <= l.frames && |l.frames| <= |l.delivered| + ring.c.capacity
      && ring.enqueueTicket == Int32.ToInt32(|l.frames|) && ring.dequeuePos == Int32.ToInt32(|l.delivered|)
  {
    var c := ring.c.(arith := Unbounded);
    assert FanInWrap.Wrapped32(c) == ring.c;
    FanInLanes.Int32DeliversInOrder(c, k, ring.actions);
  }
}
