/** SpmcRing's `push` and `pull` as written, over shared lanes that any other thread may change between two of
    their steps. Every execution is shown to be a run of the broadcast machine. */
module BroadcastCode {
  import opened Tickets
  import opened BroadcastRing
  import opened BroadcastSafety
  import BroadcastWrap
  import Int32
  import Solo = BroadcastSolo
  import Theorems = BroadcastTheorems

  /** The threads: the one producer, or reader r. */
  datatype Thread = Pusher | Puller(r: nat)

  predicate By(a: Action, t: Thread) {
    match a
    case Push(_) => t == Pusher
    case Resume => t == Pusher
    case Pull(r) => t == Puller(r)
  }

  predicate NoneBy(actions: seq<Action>, t: Thread) {
    forall i :: 0 <= i < |actions| ==> !By(actions[i], t)
  }

  /** What other threads cannot change about thread t. */
  ghost predicate Untouched(c: Config, s: State, s': State, t: Thread) {
    && s.m.Shaped(c) && s'.m.Shaped(c) && |s.l.outcomes| == |s'.l.outcomes| == c.consumers
    && (t.Pusher? ==> s'.m.producer == s.m.producer && s'.l.pushed == s.l.pushed)
    && (t.Puller? && t.r < c.consumers ==>
          s'.m.readers[t.r] == s.m.readers[t.r] && s'.l.outcomes[t.r] == s.l.outcomes[t.r])
  }

  lemma OtherStep(c: Config, s: State, a: Action, t: Thread)
    requires s.m.Shaped(c) && |s.l.outcomes| == c.consumers && !By(a, t)
    ensures Untouched(c, s, Next(c, s, a), t)
  {
  }

  lemma RunMore(c: Config, actions: seq<Action>, a: Action)
    requires c.Valid()
    ensures Run(c, actions + [a]) == Next(c, Run(c, actions), a)
  {
    assert (actions + [a])[..|actions|] == actions;
  }

  lemma {:induction false} OthersKeep(c: Config, actions: seq<Action>, more: seq<Action>, t: Thread)
    requires c.Valid() && NoneBy(more, t)
    ensures Untouched(c, Run(c, actions), Run(c, actions + more), t)
    decreases |more|
  {
    if more == [] {
      assert actions + more == actions;
    } else {
      var n := |more| - 1;
      OthersKeep(c, actions, more[..n], t);
      assert actions + more == (actions + more[..n]) + [more[n]];
      RunMore(c, actions + more[..n], more[n]);
      OtherStep(c, Run(c, actions + more[..n]), more[n], t);
    }
  }

  /** A reader's lanes hold what the machine says. */
  predicate LanesHold(rs: seq<Reader>, dequeuePos: seq<int>, dropped: seq<int>, tornGuarded: seq<int>) {
    && |dequeuePos| == |dropped| == |tornGuarded| == |rs|
    && forall r :: 0 <= r < |rs| ==>
         dequeuePos[r] == rs[r].dequeuePos && dropped[r] == rs[r].dropped && tornGuarded[r] == rs[r].tornGuarded
  }

  predicate OnlyBy(actions: seq<Action>, r: int) {
    forall i :: 0 <= i < |actions| ==> actions[i].Pull? && actions[i].r == r
  }

  lemma {:induction false} AllOwn(before: seq<Action>, actions: seq<Action>, r: nat) returns (n: nat)
    requires before < actions && OnlyBy(actions[|before|..], r)
    ensures n > 0 && actions == before + Solo.Own(r, n)
  {
    n := |actions| - |before|;
    assert actions == before + actions[|before|..];
    assert actions[|before|..] == Solo.Own(r, n);
  }

  lemma {:induction false} AnswerIs(c: Config, s: State, s': State, r: nat, ok: bool, out: Frame)
    requires c.Valid() && r < |s.m.readers| == |s.l.outcomes| && r < |s'.m.readers| == |s'.l.outcomes|
    requires Solo.Served(c, s, r, s')
    requires s'.l.outcomes[r].frames == s.l.outcomes[r].frames + if ok then [out] else []
    ensures ok == (s.m.readers[r].dequeuePos < s.m.writeTicket)
    ensures ok ==> out == s.l.pushed[Solo.HeadFor(c, s.m, s.m.readers[r].dequeuePos)]
  {
    var had, has := s.l.outcomes[r].frames, s'.l.outcomes[r].frames;
    assert ok ==> has[|had|] == out;
  }

  /** What a whole `pull` comes to when all steps meanwhile were its own. */
  lemma {:induction false} Undisturbed(c: Config, before: seq<Action>, actions: seq<Action>, r: nat, ok: bool,
                                       out: Frame)
    requires c.Valid() && c.arith.Unbounded? && r < c.consumers && before < actions
    requires OnlyBy(actions[|before|..], r) && Run(c, before).m.producer.Idle?
    requires Solo.AtRest(Run(c, before), r) && Solo.AtRest(Run(c, actions), r)
    requires Run(c, actions).l.outcomes[r].frames
          == Run(c, before).l.outcomes[r].frames + if ok then [out] else []
    ensures var s, s' := Run(c, before), Run(c, actions);
      && Solo.Served(c, s, r, s') && ok == (s.m.readers[r].dequeuePos < s.m.writeTicket)
      && (ok ==> out == s.l.pushed[Solo.HeadFor(c, s.m, s.m.readers[r].dequeuePos)])
  {
    var n := AllOwn(before, actions, r);
    Solo.CallsWhenIdle(c, before, r, n);
    AnswerIs(c, Run(c, before), Run(c, actions), r, ok, out);
  }

  class SpmcRing {
    const c: Config
    const gen: array<int>
    const payload: array<Frame>
    const dequeuePos: array<int>
    const dropped: array<int>
    const tornGuarded: array<int>
    var writeTicket: int
    /** Every step that any thread has taken since the lanes were initialised. */
    ghost var actions: seq<Action>

    ghost function Now(): (s: State)
      requires c.Valid()
      reads this
      ensures s.m.Shaped(c) && |s.l.outcomes| == c.consumers
    {
      Run(c, actions)
    }

    ghost predicate Valid()
      reads this, gen, payload, dequeuePos, dropped, tornGuarded
    {
      && c.Valid() && gen.Length == payload.Length == c.capacity
      && gen != dequeuePos && gen != dropped && gen != tornGuarded
      && dequeuePos != dropped && dequeuePos != tornGuarded && dropped != tornGuarded
      && writeTicket == Now().m.writeTicket && gen[..] == Now().m.gen && payload[..] == Now().m.payload
      && LanesHold(Now().m.readers, dequeuePos[..], dropped[..], tornGuarded[..])
    }

    /** `initLayout` on a fresh buffer. */
    constructor (c: Config)
      requires c.Valid()
      ensures Valid() && actions == [] && this.c == c
      ensures fresh(gen) && fresh(payload) && fresh(dequeuePos) && fresh(dropped) && fresh(tornGuarded)
    {
      this.c, writeTicket, actions := c, 0, [];
      gen := new int[c.capacity](s => c.arith.Lane(2 * (s - c.capacity)));
      payload := new Frame[c.capacity](_ => seq(c.words, _ => 0));
      dequeuePos, dropped := new int[c.consumers](_ => 0), new int[c.consumers](_ => 0);
      tornGuarded := new int[c.consumers](_ => 0);
      new;
      assert gen[..] == InitLayout(c).gen;
      assert payload[..] == InitLayout(c).payload;
    }

    /** The scheduler: any number of steps of any threads but t. A caller knows no more than this contract, so
        what it proves holds whatever the others do. */
    method Others(ghost t: Thread)
      requires Valid()
      modifies this, gen, payload, dequeuePos, dropped, tornGuarded
      ensures Valid() && old(actions) <= actions && NoneBy(actions[|old(actions)|..], t)
    {
    }

    method Yield(ghost t: Thread)
      requires Valid()
      modifies this, gen, payload, dequeuePos, dropped, tornGuarded
      ensures Valid() && old(actions) <= actions && Untouched(c, old(Now()), Now(), t)
    {
      ghost var before := actions;
      Others(t);
      OthersKeep(c, before, actions[|before|..], t);
      assert before + actions[|before|..] == actions;
    }

    /** Record the step that the surrounding statement performs. */
    ghost method Take(a: Action)
      requires c.Valid()
      modifies this`actions
      ensures actions == old(actions) + [a] && Now() == Next(c, old(Now()), a)
    {
      RunMore(c, actions, a);
      actions := actions + [a];
    }

    // The steps of `push`, one `Atomics` call or payload word each

    method LoadTicket(frame: Frame) returns (t: int)
      requires Valid() && |frame| == c.words && Now().m.producer.Idle?
      modifies this`actions
      ensures Valid() && actions == old(actions) + [Push(frame)] && Now().l == old(Now()).l
      ensures Now().m.producer == LoadedTicket(frame, t)
    {
      t := writeTicket;
      Take(Push(frame));
    }

    method StoreBusy(ghost frame: Frame, t: int)
      requires Valid() && Now().m.producer == LoadedTicket(frame, t)
      modifies this`actions, gen
      ensures Valid() && actions == old(actions) + [Resume] && Now().m.producer == Writing(frame, t, 0)
      ensures Now().l.pushed == old(Now()).l.pushed + [frame]
    {
      gen[c.Slot(t)] := c.arith.Lane(2 * t + 1);
      Take(Resume);
      assert gen[..] == old(gen[..])[c.Slot(t) := c.arith.Lane(Busy(t))];
    }

    method WriteWord(frame: Frame, t: int, i: nat)
      requires Valid() && i < c.words && Now().m.producer == Writing(frame, t, i)
      modifies this`actions, payload
      ensures Valid() && actions == old(actions) + [Resume] && Now().l == old(Now()).l
      ensures Now().m.producer == Writing(frame, t, i + 1)
    {
      assert payload[..][c.Slot(t)] == Now().m.payload[c.Slot(t)];
      payload[c.Slot(t)] := payload[c.Slot(t)][i := frame[i]];
      Take(Resume);
      assert payload[..] == old(payload[..])[c.Slot(t) := payload[c.Slot(t)]];
    }

    method StoreComplete(ghost frame: Frame, t: int)
      requires Valid() && Now().m.producer == Writing(frame, t, c.words)
      modifies this`actions, gen
      ensures Valid() && actions == old(actions) + [Resume] && Now().l == old(Now()).l
      ensures Now().m.producer == Advancing(t)
    {
      gen[c.Slot(t)] := c.arith.Lane(2 * t);
      Take(Resume);
      assert gen[..] == old(gen[..])[c.Slot(t) := c.arith.Lane(Complete(t))];
    }

    method StoreTicket(t: int)
      requires Valid() && Now().m.producer == Advancing(t)
      modifies this`actions, this`writeTicket
      ensures Valid() && actions == old(actions) + [Resume] && Now().l == old(Now()).l && Now().m.producer.Idle?
    {
      writeTicket := c.arith.Lane(t + 1);
      Take(Resume);
    }

    method WritePayload(frame: Frame, t: int)
      requires Valid() && |frame| == c.words && Now().m.producer == Writing(frame, t, 0)
      modifies this, gen, payload, dequeuePos, dropped, tornGuarded
      ensures Valid() && old(actions) <= actions && Now().l.pushed == old(Now()).l.pushed
      ensures Now().m.producer == Writing(frame, t, c.words)
    {
      for i := 0 to c.words
        invariant Valid() && old(actions) <= actions && Now().l.pushed == old(Now()).l.pushed
        invariant Now().m.producer == Writing(frame, t, i)
      {
        Yield(Pusher);
        WriteWord(frame, t, i);
      }
    }

    /** `push`: it always succeeds, and logs exactly its own frame. */
    method PushFrame(frame: Frame)
      requires Valid() && |frame| == c.words && Now().m.producer.Idle?
      modifies this, gen, payload, dequeuePos, dropped, tornGuarded
      ensures Valid() && old(actions) <= actions && Now().m.producer.Idle?
      ensures Now().l.pushed == old(Now()).l.pushed + [frame]
    {
      var t := LoadTicket(frame);
      Yield(Pusher);
      StoreBusy(frame, t);
      WritePayload(frame, t);
      Yield(Pusher);
      StoreComplete(frame, t);
      Yield(Pusher);
      StoreTicket(t);
    }

    // The steps of `pull` by reader r

    /** Where reader r stands. */
    ghost function At(r: nat): Position
      requires c.Valid() && r < c.consumers
      reads this
    {
      Now().m.readers[r].at
    }

    ghost function Got(r: nat): Outcome
      requires c.Valid() && r < c.consumers
      reads this
    {
      Now().l.outcomes[r]
    }

    method LoadHead(r: nat) returns (head: int)
      requires Valid() && r < c.consumers && At(r).Resting?
      modifies this`actions
      ensures Valid() && actions == old(actions) + [Pull(r)] && Got(r) == old(Got(r))
      ensures At(r) == LoadedHead(head)
    {
      head := dequeuePos[r];
      Take(Pull(r));
    }

    /** Load the write cursor; `over` says that the overload net fires. */
    method LoadWindow(r: nat, head: int) returns (over: bool, target: int, lost: int)
      requires Valid() && r < c.consumers && At(r) == LoadedHead(head)
      modifies this`actions
      ensures Valid() && actions == old(actions) + [Pull(r)] && Got(r) == old(Got(r))
      ensures At(r) == if over then CountingLoss(head, target, lost) else AtGate(head, head)
    {
      var w := writeTicket;
      over, target, lost := c.arith.Diff(w, head) > c.capacity, c.arith.Lane(w - c.capacity), 0;
      if over {
        lost := c.arith.Diff(target, head);
      }
      Take(Pull(r));
    }

    method AddLoss(r: nat, ghost start: int, ghost target: int, lost: int)
      requires Valid() && r < c.consumers && At(r) == CountingLoss(start, target, lost)
      modifies this`actions, dropped
      ensures Valid() && actions == old(actions) + [Pull(r)] && Got(r).frames == old(Got(r)).frames
      ensures At(r) == AtGate(start, target)
    {
      if lost > 0 {
        dropped[r] := c.arith.Lane(dropped[r] + lost);
      }
      Take(Pull(r));
    }

    method LoadGeneration(r: nat, start: int, head: int) returns (d: int, seq1: int)
      requires Valid() && r < c.consumers && At(r) == AtGate(start, head)
      modifies this`actions
      ensures Valid() && actions == old(actions) + [Pull(r)] && Got(r) == old(Got(r))
      ensures At(r) == if d == 0 then Reading(head, seq1, []) else if d >= 2 then CountingDrop(head)
                       else if head != start then StoringCatchUp(head) else Resting
    {
      assert gen[..][c.Slot(head)] == gen[c.Slot(head)];
      seq1 := gen[c.Slot(head)];
      d := c.arith.Diff(seq1, c.arith.Lane(2 * head));
      Take(Pull(r));
    }

    method ReadWord(r: nat, head: int, seq1: int, out: Frame) returns (out': Frame)
      requires Valid() && r < c.consumers && At(r) == Reading(head, seq1, out) && |out| < c.words
      modifies this`actions
      ensures Valid() && actions == old(actions) + [Pull(r)] && Got(r) == old(Got(r))
      ensures At(r) == Reading(head, seq1, out') && |out'| == |out| + 1
    {
      assert payload[..][c.Slot(head)] == payload[c.Slot(head)];
      out' := out + [payload[c.Slot(head)][|out|]];
      Take(Pull(r));
    }

    method Reread(r: nat, head: int, seq1: int, out: Frame) returns (torn: bool)
      requires Valid() && r < c.consumers && At(r) == Reading(head, seq1, out) && |out| == c.words
      modifies this`actions
      ensures Valid() && actions == old(actions) + [Pull(r)] && Got(r) == old(Got(r))
      ensures At(r) == if torn then CountingTorn(head) else Storing(head, out)
    {
      assert gen[..][c.Slot(head)] == gen[c.Slot(head)];
      torn := gen[c.Slot(head)] != seq1;
      Take(Pull(r));
    }

    method CountTorn(r: nat, ghost head: int)
      requires Valid() && r < c.consumers && At(r) == CountingTorn(head)
      modifies this`actions, tornGuarded
      ensures Valid() && actions == old(actions) + [Pull(r)] && Got(r) == old(Got(r)) && At(r) == CountingDrop(head)
    {
      tornGuarded[r] := c.arith.Lane(tornGuarded[r] + 1);
      Take(Pull(r));
    }

    method CountDrop(r: nat, ghost head: int)
      requires Valid() && r < c.consumers && At(r) == CountingDrop(head)
      modifies this`actions, dropped
      ensures Valid() && actions == old(actions) + [Pull(r)] && Got(r).frames == old(Got(r)).frames
      ensures At(r) == StoringSkip(head)
    {
      dropped[r] := c.arith.Lane(dropped[r] + 1);
      Take(Pull(r));
    }

    /** The cursor store that ends a delivery, a skip or a catch-up. */
    method StoreCursor(r: nat, pos: int)
      requires Valid() && r < c.consumers && var at := At(r);
        || (at.Storing? && pos == c.arith.Lane(at.head + 1)) || (at.StoringSkip? && pos == c.arith.Lane(at.head + 1))
        || (at.StoringCatchUp? && pos == at.head)
      modifies this`actions, dequeuePos
      ensures Valid() && actions == old(actions) + [Pull(r)] && At(r).Resting?
      ensures Got(r).frames == old(Got(r)).frames + if old(At(r)).Storing? then [old(At(r)).frame] else []
    {
      dequeuePos[r] := pos;
      Take(Pull(r));
    }

    /** The first half of `pull`: up to the gate, with the overload net. */
    method Approach(r: nat) returns (start: int, head: int)
      requires Valid() && r < c.consumers && At(r).Resting?
      modifies this, gen, payload, dequeuePos, dropped, tornGuarded
      ensures Valid() && old(actions) < actions && Got(r).frames == old(Got(r)).frames
      ensures At(r) == AtGate(start, head)
    {
      start := LoadHead(r);
      Yield(Puller(r));
      var over, target, lost := LoadWindow(r, start);
      head := start;
      if over {
        Yield(Puller(r));
        AddLoss(r, start, target, lost);
        head := target;
      }
      Yield(Puller(r));
    }

    method ReadPayload(r: nat, head: int, seq1: int) returns (out: Frame)
      requires Valid() && r < c.consumers && At(r) == Reading(head, seq1, [])
      modifies this, gen, payload, dequeuePos, dropped, tornGuarded
      ensures Valid() && old(actions) <= actions && Got(r).frames == old(Got(r)).frames
      ensures |out| == c.words && At(r) == Reading(head, seq1, out)
    {
      out := [];
      while |out| < c.words
        invariant Valid() && old(actions) <= actions && Got(r).frames == old(Got(r)).frames
        invariant |out| <= c.words && At(r) == Reading(head, seq1, out)
      {
        Yield(Puller(r));
        out := ReadWord(r, head, seq1, out);
      }
    }

    /** Count the head as lost and move past it. */
    method Skip(r: nat, head: int)
      requires Valid() && r < c.consumers && At(r) == CountingDrop(head)
      modifies this, gen, payload, dequeuePos, dropped, tornGuarded
      ensures Valid() && old(actions) <= actions && Got(r).frames == old(Got(r)).frames && At(r).Resting?
    {
      CountDrop(r, head);
      Yield(Puller(r));
      StoreCursor(r, c.arith.Lane(head + 1));
    }

    /** Give up a frame that was overwritten while it was read. */
    method Discard(r: nat, head: int)
      requires Valid() && r < c.consumers && At(r) == CountingTorn(head)
      modifies this, gen, payload, dequeuePos, dropped, tornGuarded
      ensures Valid() && old(actions) <= actions && Got(r).frames == old(Got(r)).frames && At(r).Resting?
    {
      CountTorn(r, head);
      Yield(Puller(r));
      Skip(r, head);
    }

    /** The candidate branch: read, read the generation again, deliver or discard. */
    method Candidate(r: nat, head: int, seq1: int) returns (ok: bool, out: Frame)
      requires Valid() && r < c.consumers && At(r) == Reading(head, seq1, [])
      modifies this, gen, payload, dequeuePos, dropped, tornGuarded
      ensures Valid() && old(actions) <= actions && At(r).Resting?
      ensures Got(r).frames == old(Got(r)).frames + if ok then [out] else []
    {
      out := ReadPayload(r, head, seq1);
      Yield(Puller(r));
      var torn := Reread(r, head, seq1, out);
      Yield(Puller(r));
      if torn {
        Discard(r, head);
        return false, [];
      }
      StoreCursor(r, c.arith.Lane(head + 1));
      return true, out;
    }

    /** The rest of `pull`, for an index that it has accepted. */
    method PullAs(r: nat) returns (ok: bool, out: Frame)
      requires Valid() && r < c.consumers && At(r).Resting?
      modifies this, gen, payload, dequeuePos, dropped, tornGuarded
      ensures Valid() && old(actions) < actions && At(r).Resting?
      ensures Got(r).frames == old(Got(r)).frames + if ok then [out] else []
    {
      var start, head := Approach(r);
      var d, seq1 := LoadGeneration(r, start, head);
      if d == 0 {
        ok, out := Candidate(r, head, seq1);
        return;
      }
      ok, out := false, [];
      Yield(Puller(r));
      if d >= 2 {
        Skip(r, head);
      } else if head != start {
        StoreCursor(r, head);
      }
    }

    /** `pull`: it returns true exactly when it has delivered the frame it returns; `thrown` for a bad index. When no
        other thread moves meanwhile and the producer is between calls, it delivers exactly if the reader is behind,
        from its cursor or from the oldest of the last `capacity` frames, whichever is later. */
    method PullFrame(consumerIndex: int) returns (ok: bool, thrown: bool, out: Frame)
      requires Valid() && (0 <= consumerIndex < c.consumers ==> At(consumerIndex).Resting?)
      modifies this, gen, payload, dequeuePos, dropped, tornGuarded
      ensures Valid() && old(actions) <= actions && thrown == !(0 <= consumerIndex < c.consumers)
      ensures thrown ==> !ok && actions == old(actions)
      ensures !thrown ==> At(consumerIndex).Resting?
      ensures !thrown ==> Got(consumerIndex).frames == old(Got(consumerIndex)).frames + if ok then [out] else []
      ensures !thrown && c.arith.Unbounded? && OnlyBy(actions[|old(actions)|..], consumerIndex)
              && old(Now()).m.producer.Idle? ==>
                var pos, w := old(dequeuePos[consumerIndex]), old(writeTicket);
                var head := if w - c.capacity > pos then w - c.capacity else pos;
                && ok == (pos < w)
                && (ok ==> 0 <= head < |old(Now()).l.pushed| && out == old(Now()).l.pushed[head])
                && dequeuePos[consumerIndex] == (if ok then head + 1 else pos)
                && dropped[consumerIndex] == old(dropped[consumerIndex]) + (head - pos)
    {
      thrown := consumerIndex < 0 || consumerIndex >= c.consumers;
      if thrown {
        return false, true, [];
      }
      ghost var before, lanes, losses := actions, dequeuePos[..], dropped[..];
      ok, out := PullAs(consumerIndex);
      assert lanes[consumerIndex] == old(dequeuePos[consumerIndex]);
      assert losses[consumerIndex] == old(dropped[consumerIndex]);
      assert dequeuePos[..][consumerIndex] == dequeuePos[consumerIndex];
      assert dropped[..][consumerIndex] == dropped[consumerIndex];
      if c.arith.Unbounded? && OnlyBy(actions[|before|..], consumerIndex) && Run(c, before).m.producer.Idle? {
        Undisturbed(c, before, actions, consumerIndex, ok, out);
      }
    }
  }

  /** `flowScaleHint`: the producer paces to the slowest of its readers, in the scale that their lanes stand for. */
  method FlowScaleHint(flowScale: array<int>) returns (hint: real)
    requires flowScale.Length > 0
    ensures exists r :: 0 <= r < flowScale.Length && hint == flowScale[r] as real / 65536.0
    ensures forall r :: 0 <= r < flowScale.Length ==> hint <= flowScale[r] as real / 65536.0
  {
    var least := flowScale[0];
    for r := 1 to flowScale.Length
      invariant exists k :: 0 <= k < r && least == flowScale[k]
      invariant forall k :: 0 <= k < r ==> least <= flowScale[k]
    {
      if flowScale[r] < least {
        least := flowScale[r];
      }
    }
    hint := least as real / 65536.0;
  }

  lemma {:induction false} GotWhole(c: Config, actions: seq<Action>, s: State, r: nat)
    requires c.Valid() && c.arith.Unbounded? && r < c.consumers && s == Run(c, actions)
    ensures FramesOk(s.l.pushed, s.l.outcomes[r]) && |s.l.outcomes[r].frames| == |s.l.outcomes[r].tickets|
  {
    Theorems.SeqlockNeverTears(c, actions);
  }

  /** Whatever the threads did, a reader has got only whole frames, each the one pushed under its ticket, and between
      its calls its lanes account for every ticket below its cursor. */
  lemma {:induction false} LanesKeepAccounts(ring: SpmcRing, r: nat)
    requires ring.Valid() && ring.c.arith.Unbounded? && r < ring.c.consumers
    ensures FramesOk(ring.Now().l.pushed, ring.Got(r))
    ensures ring.At(r).Resting? ==>
      && |ring.Got(r).frames| + ring.dropped[r] == ring.dequeuePos[r] <= ring.writeTicket + 1
      && 0 <= ring.tornGuarded[r] <= ring.dropped[r]
  {
    assert ring.dequeuePos[..][r] == ring.dequeuePos[r];
    assert ring.dropped[..][r] == ring.dropped[r];
    assert ring.tornGuarded[..][r] == ring.tornGuarded[r];
    GotWhole(ring.c, ring.actions, ring.Now(), r);
    if ring.At(r).Resting? {
      Theorems.BroadcastAccounting(ring.c, ring.actions, r);
    }
  }

  /** And so do Int32 lanes, over any number of wraps, as long as no reader falls too far behind inside a call. */
  lemma {:induction false} Int32LanesKeepAccounts(ring: SpmcRing, e: nat, r: nat) returns (tickets: seq<int>, lost: nat)
    requires ring.Valid() && ring.c.arith.Wrapped? && r < ring.c.consumers
    requires var c := ring.c.(arith := Unbounded);
      BroadcastWrap.Accepted(c, e) && BroadcastWrap.AlwaysPrompt(c, ring.actions)
    ensures BroadcastWrap.DeliveredAs(ring.Now().l.pushed, ring.Got(r).frames, tickets)
    ensures ring.At(r).Resting? ==>
      ring.dropped[r] == Int32.ToInt32(lost) && ring.dequeuePos[r] == Int32.ToInt32(|tickets| + lost)
  {
    var c := ring.c.(arith := Unbounded);
    assert BroadcastWrap.Wrapped32(c) == ring.c;
    assert ring.dequeuePos[..][r] == ring.dequeuePos[r];
    assert ring.dropped[..][r] == ring.dropped[r];
    tickets, lost := BroadcastWrap.Int32DeliversWhole(c, e, ring.actions, r);
  }
}
