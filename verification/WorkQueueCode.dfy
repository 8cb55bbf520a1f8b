/** MpmcWorkQueue's methods as written, over shared lanes that any other thread may change between two of their
    steps. Every execution is shown to be a run of the work-queue machine. */
module WorkQueueCode {
  import opened Tickets
  import opened WorkQueue
  import Theorems = WorkQueueTheorems
  import WorkQueueWrap
  import Int32

  datatype Thread = Pusher(p: nat) | Puller(k: nat)

  /** A step that cannot fall inside a call of thread t: its own, and for a producer also `close`, which the
      coordinator makes only once no producer will claim again. */
  predicate Excluded(a: Action, t: Thread) {
    match a
    case Push(p, _) => t == Pusher(p)
    case Resume(p) => t == Pusher(p)
    case Pull(k) => t == Puller(k)
    case AskDrained(k) => t == Puller(k)
    case Advance(k) => t == Puller(k)
    case Close => t.Pusher?
  }

  predicate NoneBy(actions: seq<Action>, t: Thread) {
    forall i :: 0 <= i < |actions| ==> !Excluded(actions[i], t)
  }

  /** What other threads cannot change about thread t. */
  ghost predicate Untouched(c: Config, s: State, s': State, t: Thread) {
    && s.m.Shaped(c) && s'.m.Shaped(c) && |s.l.outcomes| == |s'.l.outcomes| == c.consumers
    && s.l.frames <= s'.l.frames
    && (t.Pusher? ==> s'.m.closed == s.m.closed)
    && (t.Pusher? && t.p < c.threads ==> s'.m.producers[t.p] == s.m.producers[t.p])
    && (t.Puller? && t.k < c.consumers ==>
          s'.m.consumers[t.k] == s.m.consumers[t.k] && s'.l.outcomes[t.k] == s.l.outcomes[t.k])
  }

  lemma OtherStep(c: Config, s: State, a: Action, t: Thread)
    requires s.m.Shaped(c) && |s.l.outcomes| == c.consumers && !Excluded(a, t)
    ensures Untouched(c, s, Next(c, s, a), t)
  {
  }

  lemma RunMore(c: Config, actions: seq<Action>, a: Action)
    requires c.Valid()
    ensures Run(c, actions + [a]) == Next(c, Run(c, actions), a)
  {
    assert (actions + [a])[..|actions|] == actions;
  }

  lemma {:induction false} OthersKeep(c: Config, actions: seq<Action>, more: seq<Action>, t: Thread)
    requires c.Valid() && NoneBy(more, t)
    ensures Untouched(c, Run(c, actions), Run(c, actions + more), t)
    decreases |more|
  {
    if more == [] {
      assert actions + more == actions;
    } else {
      var n := |more| - 1;
      OthersKeep(c, actions, more[..n], t);
      assert actions + more == (actions + more[..n]) + [more[n]];
      RunMore(c, actions + more[..n], more[n]);
      OtherStep(c, Run(c, actions + more[..n]), more[n], t);
    }
  }

  /** A closed stream stays closed and gets no more tickets, and claims are never taken back. */
  predicate Onward(m: Machine, m': Machine) {
    (m.closed ==> m'.closed && m'.enqueueTicket == m.enqueueTicket) && m.dequeueTicket <= m'.dequeueTicket
  }

  lemma OnwardStep(c: Config, s: State, a: Action)
    requires c.arith.Unbounded? && s.m.Shaped(c) && |s.l.outcomes| == c.consumers
    ensures Onward(s.m, Next(c, s, a).m)
  {
  }

  lemma {:induction false} OnwardRun(c: Config, actions: seq<Action>, more: seq<Action>)
    requires c.Valid() && c.arith.Unbounded?
    ensures Onward(Run(c, actions).m, Run(c, actions + more).m)
    decreases |more|
  {
    if more == [] {
      assert actions + more == actions;
    } else {
      var n := |more| - 1;
      OnwardRun(c, actions, more[..n]);
      assert actions + more == (actions + more[..n]) + [more[n]];
      RunMore(c, actions + more[..n], more[n]);
      OnwardStep(c, Run(c, actions + more[..n]), more[n]);
    }
  }

  /** Closed, and nothing left to claim. */
  predicate AllClaimed(m: Machine) {
    m.closed && m.enqueueTicket <= m.dequeueTicket
  }

  /** The consumers' own fields hold what the machine says. */
  predicate ClaimsHold(ks: seq<Consumer>, held: seq<Held>) {
    |held| == |ks| && forall k :: 0 <= k < |ks| ==> held[k] == ks[k].held
  }

  class MpmcWorkQueue {
    const c: Config
    const gen: array<int>
    const payload: array<Frame>
    /** `heldTicket` and `hasHeld` of each consumer's own instance. */
    const held: array<Held>
    var enqueueTicket: int
    var dequeueTicket: int
    var frontier: int
    var droppedFrames: int
    var strandedClaims: int
    var tornGuarded: int
    var closed: bool
    /** Every step that any thread has taken since the lanes were initialised. */
    ghost var actions: seq<Action>

    ghost function Now(): (s: State)
      requires c.Valid()
      reads this
      ensures s.m.Shaped(c) && |s.l.outcomes| == c.consumers
    {
      Run(c, actions)
    }

    ghost predicate Valid()
      reads this, gen, payload, held
    {
      && c.Valid() && gen.Length == payload.Length == c.capacity
      && var m := Now().m;
      && enqueueTicket == m.enqueueTicket && dequeueTicket == m.dequeueTicket && frontier == m.frontier
      && droppedFrames == m.droppedFrames && strandedClaims == m.strandedClaims && tornGuarded == m.tornGuarded
      && closed == m.closed && gen[..] == m.gen && payload[..] == m.payload
      && ClaimsHold(m.consumers, held[..])
    }

    /** `initLayout` on a fresh buffer. */
    constructor (c: Config)
      requires c.Valid()
      ensures Valid() && actions == [] && this.c == c && fresh(gen) && fresh(payload) && fresh(held)
    {
      this.c, actions := c, [];
      enqueueTicket, dequeueTicket, frontier := 0, 0, 0;
      droppedFrames, strandedClaims, tornGuarded, closed := 0, 0, 0, false;
      gen := new int[c.capacity](s => c.arith.Lane(s));
      payload := new Frame[c.capacity](_ => seq(c.words, _ => 0));
      held := new Held[c.consumers](_ => Nothing);
      new;
      assert gen[..] == InitLayout(c).gen;
      assert payload[..] == InitLayout(c).payload;
    }

    /** The scheduler: any number of steps that cannot fall inside a call of t. A caller knows no more than this
        contract, so what it proves holds whatever the others do. */
    method Others(ghost t: Thread)
      requires Valid()
      modifies this, gen, payload, held
      ensures Valid() && old(actions) <= actions && NoneBy(actions[|old(actions)|..], t)
    {
    }

    method Yield(ghost t: Thread)
      requires Valid()
      modifies this, gen, payload, held
      ensures Valid() && old(actions) <= actions && Untouched(c, old(Now()), Now(), t)
      ensures c.arith.Unbounded? ==> Onward(old(Now()).m, Now().m)
    {
      ghost var before := actions;
      Others(t);
      OthersKeep(c, before, actions[|before|..], t);
      if c.arith.Unbounded? {
        OnwardRun(c, before, actions[|before|..]);
      }
      assert before + actions[|before|..] == actions;
    }

    /** Record the step that the surrounding statement performs. */
    ghost method Take(a: Action)
      requires c.Valid()
      modifies this`actions
      ensures actions == old(actions) + [a] && Now() == Next(c, old(Now()), a)
      ensures actions[..|actions| - 1] == old(actions)
    {
      RunMore(c, actions, a);
      actions := actions + [a];
    }

    ghost function Producing(p: nat): Producer
      requires c.Valid() && p < c.threads
      reads this
    {
      Now().m.producers[p]
    }

    /** Where producer p stood before the last step of all. */
    ghost function LastFrom(p: nat): Producer
      requires c.Valid() && p < c.threads
      reads this
    {
      if actions == [] then Idle else Run(c, actions[..|actions| - 1]).m.producers[p]
    }

    // `advanceFrontier`

    method LoadFrontier(p: nat, ghost frame: Frame) returns (f: int)
      requires Valid() && p < c.threads && |frame| == c.words && Producing(p).Idle?
      modifies this`actions
      ensures Valid() && actions == old(actions) + [Push(p, frame)] && Now().l.frames == old(Now()).l.frames
      ensures Producing(p) == Scanning(frame, f, f, 0) && closed == old(closed)
    {
      f := frontier;
      Take(Push(p, frame));
    }

    /** Load the stamp of ticket f's slot. */
    method ScanStep(p: nat, ghost frame: Frame, ghost start: int, f: int, ghost scanned: nat) returns (freed: bool)
      requires Valid() && p < c.threads && Producing(p) == Scanning(frame, start, f, scanned) && scanned < c.capacity
      modifies this`actions
      ensures Valid() && actions == old(actions) + [Resume(p)] && Now().l == old(Now()).l
      ensures Producing(p) == if freed then Scanning(frame, start, c.arith.Lane(f + 1), scanned + 1)
                              else AfterScan(frame, start, f)
    {
      var slot := c.arith.Slot(f, c.capacity);
      assert gen[..][slot] == gen[slot];
      freed := c.arith.Diff(gen[slot], c.arith.Lane(f + c.capacity)) >= 0;
      Take(Resume(p));
    }

    /** The loop has seen every slot. */
    ghost method ScanFull(p: nat, frame: Frame, start: int, f: int)
      requires Valid() && p < c.threads && Producing(p) == Scanning(frame, start, f, c.capacity)
      modifies this`actions
      ensures Valid() && actions == old(actions) + [Resume(p)] && Now().l == old(Now()).l
      ensures Producing(p) == AfterScan(frame, start, f)
    {
      Take(Resume(p));
    }

    method Recheck(p: nat, ghost frame: Frame, f: int) returns (ahead: bool)
      requires Valid() && p < c.threads && Producing(p) == Rechecking(frame, f)
      modifies this`actions
      ensures Valid() && actions == old(actions) + [Resume(p)] && Now().l == old(Now()).l
      ensures Producing(p) == if ahead then StoringFrontier(frame, f) else LoadingTicket(frame)
    {
      ahead := c.arith.Diff(f, frontier) > 0;
      Take(Resume(p));
    }

    method StoreFrontier(p: nat, ghost frame: Frame, f: int)
      requires Valid() && p < c.threads && Producing(p) == StoringFrontier(frame, f)
      modifies this`actions, this`frontier
      ensures Valid() && actions == old(actions) + [Resume(p)] && Now().l == old(Now()).l
      ensures Producing(p) == LoadingTicket(frame)
    {
      frontier := f;
      Take(Resume(p));
    }

    /** The scanning loop: it stops at the first ticket that is not freed, or after a whole lap. */
    method Scan(p: nat, ghost frame: Frame, start: int) returns (f: int)
      requires Valid() && p < c.threads && Producing(p) == Scanning(frame, start, start, 0)
      modifies this, gen, payload, held
      ensures Valid() && old(actions) <= actions && old(Now()).l.frames <= Now().l.frames && closed == old(closed)
      ensures Producing(p) == AfterScan(frame, start, f)
    {
      f := start;
      for scanned := 0 to c.capacity
        invariant Valid() && old(actions) <= actions && old(Now()).l.frames <= Now().l.frames && closed == old(closed)
        invariant Producing(p) == Scanning(frame, start, f, scanned)
      {
        Yield(Pusher(p));
        var freed := ScanStep(p, frame, start, f, scanned);
        if !freed {
          return;
        }
        f := c.arith.Lane(f + 1);
      }
      ScanFull(p, frame, start, f);
    }

    /** The test and the store that follow the scan. */
    method PublishFrontier(p: nat, ghost frame: Frame, f: int)
      requires Valid() && p < c.threads && Producing(p) == Rechecking(frame, f)
      modifies this, gen, payload, held
      ensures Valid() && old(actions) <= actions && old(Now()).l.frames <= Now().l.frames && closed == old(closed)
      ensures Producing(p) == LoadingTicket(frame)
    {
      var ahead := Recheck(p, frame, f);
      if ahead {
        Yield(Pusher(p));
        StoreFrontier(p, frame, f);
      }
    }

    method AdvanceFrontier(p: nat, ghost frame: Frame)
      requires Valid() && p < c.threads && |frame| == c.words && Producing(p).Idle?
      modifies this, gen, payload, held
      ensures Valid() && old(actions) <= actions && old(Now()).l.frames <= Now().l.frames && closed == old(closed)
      ensures Producing(p) == LoadingTicket(frame)
    {
      var start := LoadFrontier(p, frame);
      var f := Scan(p, frame, start);
      if f != start {
        Yield(Pusher(p));
        PublishFrontier(p, frame, f);
      }
    }

    // `push`

    method LoadEnqueueTicket(p: nat, ghost frame: Frame) returns (w: int)
      requires Valid() && p < c.threads && Producing(p) == LoadingTicket(frame)
      modifies this`actions
      ensures Valid() && actions == old(actions) + [Resume(p)] && Now().l == old(Now()).l
      ensures Producing(p) == LoadedTicket(frame, w)
    {
      w := enqueueTicket;
      Take(Resume(p));
    }

    method IsFull(p: nat, ghost frame: Frame, w: int) returns (full: bool)
      requires Valid() && p < c.threads && Producing(p) == LoadedTicket(frame, w)
      modifies this`actions
      ensures Valid() && actions == old(actions) + [Resume(p)] && Now().l == old(Now()).l
      ensures Producing(p) == if full then Dropping(frame) else Admitted(frame)
    {
      full := c.arith.Diff(w, frontier) >= c.capacity - c.Slack();
      Take(Resume(p));
    }

    method CountDrop(p: nat)
      requires Valid() && p < c.threads && Producing(p).Dropping?
      modifies this`actions, this`droppedFrames
      ensures Valid() && actions == old(actions) + [Resume(p)] && Producing(p).Idle?
      ensures droppedFrames == c.arith.Lane(old(droppedFrames) + 1) && LastFrom(p).Dropping?
    {
      droppedFrames := c.arith.Lane(droppedFrames + 1);
      Take(Resume(p));
    }

    method ClaimTicket(p: nat, ghost frame: Frame) returns (claimed: int)
      requires Valid() && p < c.threads && Producing(p) == Admitted(frame) && !closed
      modifies this`actions, this`enqueueTicket
      ensures Valid() && actions == old(actions) + [Resume(p)] && Producing(p) == Writing(frame, claimed, 0)
      ensures Now().l.frames == old(Now()).l.frames + [frame]
    {
      claimed := enqueueTicket;
      enqueueTicket := c.arith.Lane(enqueueTicket + 1);
      Take(Resume(p));
    }

    method WriteWord(p: nat, frame: Frame, claimed: int, i: nat)
      requires Valid() && p < c.threads && i < c.words && Producing(p) == Writing(frame, claimed, i)
      modifies this`actions, payload
      ensures Valid() && actions == old(actions) + [Resume(p)] && Now().l == old(Now()).l
      ensures Producing(p) == Writing(frame, claimed, i + 1)
    {
      var slot := c.arith.Slot(claimed, c.capacity);
      assert payload[..][slot] == Now().m.payload[slot];
      payload[slot] := payload[slot][i := frame[i]];
      Take(Resume(p));
      assert payload[..] == old(payload[..])[slot := payload[slot]];
    }

    method StoreGeneration(p: nat, ghost frame: Frame, claimed: int)
      requires Valid() && p < c.threads && Producing(p) == Writing(frame, claimed, c.words)
      modifies this`actions, gen
      ensures Valid() && actions == old(actions) + [Resume(p)] && Now().l == old(Now()).l && Producing(p).Idle?
    {
      var slot := c.arith.Slot(claimed, c.capacity);
      gen[slot] := c.arith.Lane(claimed + 1);
      Take(Resume(p));
      assert gen[..] == old(gen[..])[slot := gen[slot]];
    }

    method WritePayload(p: nat, frame: Frame, claimed: int)
      requires Valid() && p < c.threads && |frame| == c.words && Producing(p) == Writing(frame, claimed, 0)
      modifies this, gen, payload, held
      ensures Valid() && old(actions) <= actions && old(Now()).l.frames <= Now().l.frames
      ensures Producing(p) == Writing(frame, claimed, c.words)
    {
      for i := 0 to c.words
        invariant Valid() && old(actions) <= actions && old(Now()).l.frames <= Now().l.frames
        invariant Producing(p) == Writing(frame, claimed, i)
      {
        Yield(Pusher(p));
        WriteWord(p, frame, claimed, i);
      }
    }

    /** `push` after the claim. */
    method Publish(p: nat, frame: Frame, claimed: int)
      requires Valid() && p < c.threads && |frame| == c.words && Producing(p) == Writing(frame, claimed, 0)
      modifies this, gen, payload, held
      ensures Valid() && old(actions) <= actions && old(Now()).l.frames <= Now().l.frames && Producing(p).Idle?
    {
      WritePayload(p, frame, claimed);
      Yield(Pusher(p));
      StoreGeneration(p, frame, claimed);
    }

    /** `push` up to the claim: the frontier, both loads and the test between them. */
    method Admit(p: nat, frame: Frame) returns (full: bool)
      requires Valid() && p < c.threads && |frame| == c.words && Producing(p).Idle?
      modifies this, gen, payload, held
      ensures Valid() && old(actions) <= actions && old(Now()).l.frames <= Now().l.frames && closed == old(closed)
      ensures Producing(p) == if full then Dropping(frame) else Admitted(frame)
    {
      AdvanceFrontier(p, frame);
      Yield(Pusher(p));
      var w := LoadEnqueueTicket(p, frame);
      Yield(Pusher(p));
      full := IsFull(p, frame, w);
      Yield(Pusher(p));
    }

    /** `push` by producer p while the stream is open: true only after claiming a ticket, under which its frame was
        logged, and publishing it; false only after counting a drop. */
    method PushFrame(p: nat, frame: Frame) returns (ok: bool, ghost ticket: nat)
      requires Valid() && p < c.threads && |frame| == c.words && Producing(p).Idle? && !closed
      modifies this, gen, payload, held
      ensures Valid() && old(actions) <= actions && Producing(p).Idle?
      ensures ok ==> |old(Now()).l.frames| <= ticket < |Now().l.frames| && Now().l.frames[ticket] == frame
      ensures !ok ==> LastFrom(p).Dropping?
    {
      var full := Admit(p, frame);
      if full {
        CountDrop(p);
        return false, 0;
      }
      ticket := |Now().l.frames|;
      var claimed := ClaimTicket(p, frame);
      Publish(p, frame, claimed);
      return true, ticket;
    }

    // `pull` by consumer k

    ghost function At(k: nat): Position
      requires c.Valid() && k < c.consumers
      reads this
    {
      Now().m.consumers[k].at
    }

    ghost function Got(k: nat): Outcome
      requires c.Valid() && k < c.consumers
      reads this
    {
      Now().l.outcomes[k]
    }

    /** Enter `pull`: without a claim, load the dequeue lane. */
    method BeginPull(k: nat) returns (r: int)
      requires Valid() && k < c.consumers && At(k).Resting?
      modifies this`actions
      ensures Valid() && actions == old(actions) + [Pull(k)] && Got(k) == old(Got(k))
      ensures At(k) == if held[k].Claim? then AtGate else LoadedHead(r)
    {
      r := dequeueTicket;
      Take(Pull(k));
    }

    method LoadTicketLane(k: nat, r: int) returns (empty: bool)
      requires Valid() && k < c.consumers && At(k) == LoadedHead(r)
      modifies this`actions
      ensures Valid() && actions == old(actions) + [Advance(k)] && Got(k) == old(Got(k))
      ensures At(k) == if empty then Resting else Claiming
    {
      empty := c.arith.Diff(enqueueTicket, r) <= 0;
      Take(Advance(k));
    }

    /** The fetch-add, and the test of its result; a negative claim is given up. */
    method FetchAdd(k: nat) returns (claimed: int)
      requires Valid() && k < c.consumers && At(k) == Claiming
      modifies this`actions, this`dequeueTicket, held
      ensures Valid() && actions == old(actions) + [Advance(k)] && Got(k) == old(Got(k))
      ensures claimed == old(dequeueTicket) && At(k) == (if claimed < 0 then Resting else AtGate)
      ensures claimed >= 0 ==> held[k] == Claim(claimed)
    {
      claimed := dequeueTicket;
      dequeueTicket := c.arith.Lane(dequeueTicket + 1);
      if claimed >= 0 {
        held[k] := Claim(claimed);
      }
      Take(Advance(k));
      assert held[..] == if claimed >= 0 then old(held[..])[k := Claim(claimed)] else old(held[..]);
    }

    method LoadGeneration(k: nat) returns (d: int)
      requires Valid() && k < c.consumers && At(k) == AtGate && held[k].Claim?
      modifies this`actions
      ensures Valid() && actions == old(actions) + [Advance(k)] && Got(k) == old(Got(k))
      ensures At(k) == if d == 0 then Reading([]) else if d > 0 then CountingTorn else CheckingClosed
    {
      var ticket := held[k].ticket;
      var slot := c.arith.Slot(ticket, c.capacity);
      assert gen[..][slot] == gen[slot];
      d := c.arith.Diff(gen[slot], c.arith.Lane(ticket + 1));
      Take(Advance(k));
    }

    method ReadWord(k: nat, out: Frame) returns (out': Frame)
      requires Valid() && k < c.consumers && At(k) == Reading(out) && |out| < c.words && held[k].Claim?
      modifies this`actions
      ensures Valid() && actions == old(actions) + [Advance(k)] && Got(k) == old(Got(k))
      ensures At(k) == Reading(out') && |out'| == |out| + 1
    {
      var slot := c.arith.Slot(held[k].ticket, c.capacity);
      assert payload[..][slot] == payload[slot];
      out' := out + [payload[slot][|out|]];
      Take(Advance(k));
    }

    method FreeSlot(k: nat, ghost out: Frame)
      requires Valid() && k < c.consumers && At(k) == Reading(out) && |out| == c.words && held[k].Claim?
      modifies this`actions, gen, held
      ensures Valid() && actions == old(actions) + [Advance(k)] && At(k).Resting? && held[k] == Nothing
      ensures Got(k) == Outcome(old(Got(k)).tickets + [old(held[k]).ticket], old(Got(k)).frames + [out])
    {
      var ticket := held[k].ticket;
      var slot := c.arith.Slot(ticket, c.capacity);
      gen[slot] := c.arith.Lane(ticket + c.capacity);
      held[k] := Nothing;
      Take(Advance(k));
      assert gen[..] == old(gen[..])[slot := gen[slot]];
    }

    method CountTorn(k: nat)
      requires Valid() && k < c.consumers && At(k) == CountingTorn
      modifies this`actions, this`tornGuarded, held
      ensures Valid() && actions == old(actions) + [Advance(k)] && At(k).Resting? && Got(k) == old(Got(k))
    {
      tornGuarded := c.arith.Lane(tornGuarded + 1);
      held[k] := Nothing;
      Take(Advance(k));
    }

    method LoadClosed(k: nat) returns (ended: bool)
      requires Valid() && k < c.consumers && At(k) == CheckingClosed
      modifies this`actions
      ensures Valid() && actions == old(actions) + [Advance(k)] && Got(k) == old(Got(k))
      ensures At(k) == if ended then LoadingFinal else Resting
    {
      ended := closed;
      Take(Advance(k));
    }

    method LoadFinal(k: nat) returns (stranded: bool)
      requires Valid() && k < c.consumers && At(k) == LoadingFinal && held[k].Claim?
      modifies this`actions
      ensures Valid() && actions == old(actions) + [Advance(k)] && Got(k) == old(Got(k))
      ensures At(k) == if stranded then CountingStrand else Resting
    {
      stranded := c.arith.Diff(held[k].ticket, enqueueTicket) >= 0;
      Take(Advance(k));
    }

    method CountStrand(k: nat)
      requires Valid() && k < c.consumers && At(k) == CountingStrand
      modifies this`actions, this`strandedClaims, held
      ensures Valid() && actions == old(actions) + [Advance(k)] && At(k).Resting? && Got(k) == old(Got(k))
      ensures held[k] == Nothing
    {
      strandedClaims := c.arith.Lane(strandedClaims + 1);
      held[k] := Nothing;
      Take(Advance(k));
    }

    /** The rest of `claimTicket`, after its first load. */
    method MakeClaim(k: nat, r: int) returns (ready: bool)
      requires Valid() && k < c.consumers && At(k) == LoadedHead(r)
      modifies this, gen, payload, held
      ensures Valid() && old(actions) <= actions && Got(k) == old(Got(k))
      ensures At(k) == if ready then AtGate else Resting
    {
      var empty := LoadTicketLane(k, r);
      if empty {
        return false;
      }
      Yield(Puller(k));
      var claimed := FetchAdd(k);
      ready := claimed >= 0;
    }

    /** `pull` up to the gate: keep the claim held, or make one. `ready` is false when there was none to make. */
    method Approach(k: nat) returns (ready: bool)
      requires Valid() && k < c.consumers && At(k).Resting?
      modifies this, gen, payload, held
      ensures Valid() && old(actions) <= actions && Got(k) == old(Got(k))
      ensures At(k) == if ready then AtGate else Resting
    {
      var holding := held[k].Claim?;
      var r := BeginPull(k);
      Yield(Puller(k));
      ready := true;
      if !holding {
        ready := MakeClaim(k, r);
      }
      Yield(Puller(k));
    }

    /** A consumer at the gate, or past it, has a claim. */
    ghost method Claimed(k: nat)
      requires Valid() && k < c.consumers && HoldsAt(At(k))
      ensures held[k].Claim?
    {
      assert ConsumerShaped(c, Now().m.consumers[k]);
      assert held[..][k] == Now().m.consumers[k].held;
    }

    method ReadPayload(k: nat) returns (out: Frame)
      requires Valid() && k < c.consumers && At(k) == Reading([])
      modifies this, gen, payload, held
      ensures Valid() && old(actions) <= actions && Got(k) == old(Got(k))
      ensures |out| == c.words && At(k) == Reading(out)
    {
      out := [];
      while |out| < c.words
        invariant Valid() && old(actions) <= actions && Got(k) == old(Got(k))
        invariant |out| <= c.words && At(k) == Reading(out)
      {
        Yield(Puller(k));
        Claimed(k);
        out := ReadWord(k, out);
      }
    }

    /** The end-of-stream test of a held claim. */
    method ReleaseStrand(k: nat)
      requires Valid() && k < c.consumers && At(k) == LoadingFinal
      modifies this, gen, payload, held
      ensures Valid() && old(actions) <= actions && Got(k) == old(Got(k)) && At(k).Resting?
    {
      Claimed(k);
      var stranded := LoadFinal(k);
      if stranded {
        Yield(Puller(k));
        CountStrand(k);
      }
    }

    /** A claim that is not published yet: ride on, unless the stream has ended below it. */
    method Ride(k: nat)
      requires Valid() && k < c.consumers && At(k) == CheckingClosed
      modifies this, gen, payload, held
      ensures Valid() && old(actions) <= actions && Got(k) == old(Got(k)) && At(k).Resting?
    {
      var ended := LoadClosed(k);
      if ended {
        Yield(Puller(k));
        ReleaseStrand(k);
      }
    }

    /** The two branches in which nothing is delivered. */
    method Decline(k: nat, d: int)
      requires Valid() && k < c.consumers && At(k) == (if d > 0 then CountingTorn else CheckingClosed)
      modifies this, gen, payload, held
      ensures Valid() && old(actions) <= actions && Got(k) == old(Got(k)) && At(k).Resting?
    {
      Yield(Puller(k));
      if d > 0 {
        CountTorn(k);
      } else {
        Ride(k);
      }
    }

    method Deliver(k: nat) returns (out: Frame)
      requires Valid() && k < c.consumers && At(k) == Reading([])
      modifies this, gen, payload, held
      ensures Valid() && old(actions) <= actions && At(k).Resting? && held[k] == Nothing
      ensures Got(k).frames == old(Got(k)).frames + [out]
    {
      out := ReadPayload(k);
      Yield(Puller(k));
      Claimed(k);
      FreeSlot(k, out);
    }

    /** `pull`: it returns true exactly when it has delivered the frame it returns. */
    method PullFrame(k: nat) returns (ok: bool, out: Frame)
      requires Valid() && k < c.consumers && At(k).Resting?
      modifies this, gen, payload, held
      ensures Valid() && old(actions) <= actions && At(k).Resting?
      ensures Got(k).frames == old(Got(k)).frames + if ok then [out] else []
    {
      var ready := Approach(k);
      if !ready {
        return false, [];
      }
      Claimed(k);
      var d := LoadGeneration(k);
      if d == 0 {
        out := Deliver(k);
        return true, out;
      }
      Decline(k, d);
      return false, [];
    }

    // End of stream

    /** `close`; the coordinator calls it when no producer will claim again. */
    method CloseStream()
      requires Valid()
      modifies this`actions, this`closed
      ensures Valid() && closed && actions == old(actions) + [Close]
    {
      closed := true;
      Take(Close);
    }

    method LoadClosedLane(k: nat) returns (ended: bool)
      requires Valid() && k < c.consumers && At(k).Resting? && held[k] == Nothing
      modifies this`actions
      ensures Valid() && actions == old(actions) + [AskDrained(k)] && Got(k) == old(Got(k))
      ensures At(k) == (if ended then DrainClosed else Resting) && ended == Now().m.closed
      ensures Now().m.(consumers := old(Now()).m.consumers) == old(Now()).m && held[k] == old(held[k])
    {
      ended := closed;
      Take(AskDrained(k));
    }

    /** The two loads of `available`. */
    method LoadAvailable(k: nat) returns (none: bool)
      requires Valid() && k < c.consumers && At(k) == DrainClosed
      modifies this, gen, payload, held
      ensures Valid() && old(actions) <= actions && Got(k) == old(Got(k)) && At(k).Resting?
      ensures none ==> Now().m.consumers[k].drained
      ensures held[k] == old(held[k])
      ensures c.arith.Unbounded? && old(Now()).m.closed ==>
                (none ==> AllClaimed(Now().m)) && (old(AllClaimed(Now().m)) ==> none)
    {
      var w := enqueueTicket;
      Take(Advance(k));
      assert At(k) == DrainTicket(w);
      Yield(Puller(k));
      none := NoneLeft(k, w);
    }

    method NoneLeft(k: nat, w: int) returns (none: bool)
      requires Valid() && k < c.consumers && At(k) == DrainTicket(w)
      modifies this`actions
      ensures Valid() && actions == old(actions) + [Advance(k)] && Got(k) == old(Got(k)) && At(k).Resting?
      ensures none ==> Now().m.consumers[k].drained
      ensures none == (c.arith.Diff(w, Now().m.dequeueTicket) <= 0) && held[k] == old(held[k])
      ensures Now().m.(consumers := old(Now()).m.consumers) == old(Now()).m
    {
      none := c.arith.Diff(w, dequeueTicket) <= 0;
      Take(Advance(k));
    }

    /** `isDrained`: once the stream is closed with nothing left to claim, it answers true to every consumer that holds
        no claim, and it answers true to no other. */
    method IsDrained(k: nat) returns (done: bool)
      requires Valid() && k < c.consumers && At(k).Resting?
      modifies this, gen, payload, held
      ensures Valid() && old(actions) <= actions && Got(k) == old(Got(k)) && At(k).Resting?
      ensures done ==> Now().m.consumers[k].drained
      ensures c.arith.Unbounded? ==>
                && (done ==> held[k] == Nothing && closed && enqueueTicket <= dequeueTicket)
                && (old(held[k] == Nothing && closed && enqueueTicket <= dequeueTicket) ==> done)
    {
      if held[k].Claim? {
        return false;
      }
      var ended := LoadClosedLane(k);
      if !ended {
        return false;
      }
      Yield(Puller(k));
      done := LoadAvailable(k);
    }
  }

  /** What the history of a queue must satisfy: every consumer got whole frames, each as pushed, no ticket twice. */
  ghost predicate ExactlyOnce(l: Log) {
    && (forall k: nat :: k < |l.outcomes| ==> Theorems.OutcomeFaithful(l, l.outcomes[k]))
    && (forall j: nat, k: nat, t :: j < |l.outcomes| && k < |l.outcomes| && j != k && t in l.outcomes[j].tickets
          ==> t !in l.outcomes[k].tickets)
  }

  lemma {:induction false} RunIsExactlyOnce(c: Config, actions: seq<Action>)
    requires c.Valid() && c.arith.Unbounded? && c.threads <= c.producerCount
    ensures ExactlyOnce(Run(c, actions).l) && Run(c, actions).m.tornGuarded == 0
  {
    Theorems.ExactlyOnce(c, actions);
    var s := Run(c, actions);
    forall j: nat, k: nat, t | j < |s.l.outcomes| && k < |s.l.outcomes| && j != k && t in s.l.outcomes[j].tickets
      ensures t !in s.l.outcomes[k].tickets
    {
      assert Theorems.Has(s, j, t);
      assert !Theorems.Has(s, k, t);
    }
  }

  /** Whatever the threads did, the lanes keep what MpmcWorkQueue promises: at once for tickets that never wrap, and
      for the Int32 lanes while tickets stay below 2^31. */
  lemma {:induction false} LanesKeepExactlyOnce(queue: MpmcWorkQueue, n: nat)
    requires queue.Valid() && queue.c.threads <= queue.c.producerCount
    requires queue.c.arith.Wrapped? ==> var c := queue.c.(arith := Unbounded);
      WorkQueueWrap.Accepted(c, n) && WorkQueueWrap.AlwaysSmall(c, queue.actions)
    ensures ExactlyOnce(queue.Now().l) && queue.tornGuarded == 0
  {
    var c := queue.c.(arith := Unbounded);
    RunIsExactlyOnce(c, queue.actions);
    if queue.c.arith.Wrapped? {
      assert WorkQueueWrap.Wrapped32(c) == queue.c;
      WorkQueueWrap.Int32Refines(c, n, queue.actions);
    } else {
      assert c == queue.c;
    }
  }
}
