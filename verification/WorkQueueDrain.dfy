/** After `close`, with every claimed ticket published, consumers that keep pulling until `isDrained`
    reach the end: each whole `pull` by a consumer that is not drained delivers a frame or gives up a
    strand, so their number is bounded by what is left to claim plus what is held. */
module WorkQueueDrain {
  import opened Tickets
  import opened WorkQueue
  import opened WorkQueueInvariant
  import opened WorkQueueSafety

  /** The consumer runs alone until its call returns, for at most `fuel` steps. */
  function Finish(c: Config, s: State, k: nat, fuel: nat): (s': State)
    requires s.m.Shaped(c) && |s.l.outcomes| == c.consumers && k < c.consumers
    ensures s'.m.Shaped(c) && |s'.l.outcomes| == c.consumers
    decreases fuel
  {
    if fuel == 0 || s.m.consumers[k].at.Resting? then s
    else Finish(c, Next(c, s, Advance(k)), k, fuel - 1)
  }

  /** One whole, uninterrupted `pull` by consumer k. */
  function WholePull(c: Config, s: State, k: nat): (s': State)
    requires s.m.Shaped(c) && |s.l.outcomes| == c.consumers && k < c.consumers
    ensures s'.m.Shaped(c) && |s'.l.outcomes| == c.consumers
  {
    Finish(c, Next(c, s, Pull(k)), k, c.words + 8)
  }

  /** Closed, no `push` in progress, no call of a consumer in progress. */
  ghost predicate Ended(c: Config, s: State) {
    && Inv(c, s) && s.m.closed
    && (forall p :: 0 <= p < c.threads ==> s.m.producers[p].Idle?)
    && (forall k :: 0 <= k < c.consumers ==> s.m.consumers[k].at.Resting?)
  }

  /** What `isDrained` answers on consumer k when no other call runs meanwhile. */
  predicate IsDrained(c: Config, m: Machine, k: nat)
    requires m.Shaped(c) && k < c.consumers
  {
    m.consumers[k].held.Nothing? && m.closed && c.arith.Diff(m.enqueueTicket, m.dequeueTicket) <= 0
  }

  function Holding(ks: seq<Consumer>): nat {
    if ks == [] then 0 else Holding(ks[1..]) + if ks[0].held.Claim? then 1 else 0
  }

  /** Claims still to be made plus claims held. */
  function Remaining(m: Machine): nat {
    (if m.enqueueTicket > m.dequeueTicket then m.enqueueTicket - m.dequeueTicket else 0)
    + Holding(m.consumers)
  }

  lemma {:induction false} HoldingUpdate(ks: seq<Consumer>, k: nat, x: Consumer)
    requires k < |ks|
    ensures Holding(ks[k := x]) + Holding([ks[k]]) == Holding(ks) + Holding([x])
  {
    if k == 0 {
      assert ks[k := x][1..] == ks[1..];
    } else {
      HoldingUpdate(ks[1..], k - 1, x);
      assert ks[k := x][1..] == ks[1..][k - 1 := x];
    }
  }

  lemma {:induction false} HoldingZero(ks: seq<Consumer>)
    ensures Holding(ks) == 0 <==> forall k :: 0 <= k < |ks| ==> ks[k].held.Nothing?
  {
    if ks != [] {
      HoldingZero(ks[1..]);
      assert forall k :: 0 <= k < |ks| ==> (ks[k] == if k == 0 then ks[0] else ks[1..][k - 1]);
      if forall k :: 0 <= k < |ks| ==> ks[k].held.Nothing? {
        forall k | 0 <= k < |ks[1..]| ensures ks[1..][k].held.Nothing? {
          assert ks[1..][k] == ks[k + 1];
        }
      }
    }
  }

  /** Consumer k's call has ended without its claim; nothing changed but stamps, strands and history. */
  ghost predicate Returned(c: Config, s: State, s': State, k: nat)
    requires k < |s.m.consumers|
  {
    && Inv(c, s')
    && s'.m.(gen := [], consumers := [], strandedClaims := 0) == s.m.(gen := [], consumers := [], strandedClaims := 0)
    && s'.m.consumers == s.m.consumers[k := s.m.consumers[k].(held := Nothing, at := Resting)]
  }

  /** Only consumer k's position has changed. */
  ghost predicate Moved(s: State, s1: State, k: nat, at: Position)
    requires k < |s.m.consumers|
  {
    s1.l == s.l && s1.m == s.m.(consumers := s.m.consumers[k := s.m.consumers[k].(at := at)])
  }

  /** Running alone from s, consumer k's call returns in s'. */
  ghost predicate RunsTo(c: Config, s: State, k: nat, fuel: nat, s': State) {
    s.m.Shaped(c) && |s.l.outcomes| == c.consumers && k < c.consumers && Finish(c, s, k, fuel) == s'
  }

  lemma OneStep(c: Config, s: State, k: nat, fuel: nat, s': State)
    requires s.m.Shaped(c) && |s.l.outcomes| == c.consumers && k < c.consumers
    requires fuel > 0 && !s.m.consumers[k].at.Resting? && RunsTo(c, Next(c, s, Advance(k)), k, fuel - 1, s')
    ensures RunsTo(c, s, k, fuel, s')
  {
  }

  lemma MovedReturns(c: Config, s: State, s1: State, s': State, k: nat, at: Position)
    requires k < |s.m.consumers| && Moved(s, s1, k, at) && Returned(c, s1, s', k)
    ensures Returned(c, s, s', k)
  {
    var x := s.m.consumers[k].(held := Nothing, at := Resting);
    assert s1.m.consumers[k := x] == s.m.consumers[k := x];
  }

  /** From the payload read on, the call only reads, frees the slot and returns. */
  lemma {:induction false} ReadsThrough(c: Config, s: State, k: nat, fuel: nat) returns (s': State)
    requires Inv(c, s) && k < c.consumers && s.m.consumers[k].at.Reading?
    requires fuel >= c.words - |s.m.consumers[k].at.out| + 1
    ensures RunsTo(c, s, k, fuel, s') && Returned(c, s, s', k)
    ensures s'.l.freed == s.l.freed + {s.m.consumers[k].held.ticket} && s'.l.stranded == s.l.stranded
    decreases c.words - |s.m.consumers[k].at.out|
  {
    var s1 := Next(c, s, Advance(k));
    ConsumerKeeps(c, s, k);
    if |s.m.consumers[k].at.out| < c.words {
      assert Moved(s, s1, k, s1.m.consumers[k].at);
      s' := ReadsThrough(c, s1, k, fuel - 1);
      MovedReturns(c, s, s1, s', k, s1.m.consumers[k].at);
    } else {
      s' := s1;
    }
    OneStep(c, s, k, fuel, s');
  }

  /** The gate step of a consumer running alone. */
  lemma {:induction false} GateAlone(c: Config, s: State, k: nat) returns (s1: State)
    requires Inv(c, s) && k < c.consumers && s.m.consumers[k].at.AtGate?
    requires forall p :: 0 <= p < c.threads ==> s.m.producers[p].Idle?
    ensures Inv(c, s1) && s1 == Next(c, s, Advance(k))
    ensures Moved(s, s1, k, if s.m.consumers[k].held.ticket < s.m.enqueueTicket then Reading([]) else CheckingClosed)
  {
    assert ConsumerOk(c, s, k);
    GateExact(c, s, k);
    s1 := Next(c, s, Advance(k));
    ConsumerKeeps(c, s, k);
  }

  /** A consumer at the gate, alone: it delivers a published claim and gives up a strand. */
  lemma {:induction false} GateThrough(c: Config, s: State, k: nat, fuel: nat) returns (s': State)
    requires Inv(c, s) && s.m.closed && k < c.consumers && s.m.consumers[k].at.AtGate?
    requires forall p :: 0 <= p < c.threads ==> s.m.producers[p].Idle?
    requires fuel >= c.words + 4
    ensures RunsTo(c, s, k, fuel, s') && Returned(c, s, s', k)
    ensures var d := s.m.consumers[k].held.ticket;
      if d < s.m.enqueueTicket
      then s'.l.freed == s.l.freed + {d} && s'.l.stranded == s.l.stranded
      else s'.l.freed == s.l.freed && s'.l.stranded == s.l.stranded + {d}
  {
    var s1 := GateAlone(c, s, k);
    s' := PastGate(c, s1, k, fuel - 1);
    MovedReturns(c, s, s1, s', k, s1.m.consumers[k].at);
    OneStep(c, s, k, fuel, s');
  }

  lemma {:induction false} PastGate(c: Config, s: State, k: nat, fuel: nat) returns (s': State)
    requires Inv(c, s) && s.m.closed && k < c.consumers && fuel >= c.words + 3 && s.m.consumers[k].held.Claim?
    requires s.m.consumers[k].at
          == if s.m.consumers[k].held.ticket < s.m.enqueueTicket then Reading([]) else CheckingClosed
    ensures RunsTo(c, s, k, fuel, s') && Returned(c, s, s', k)
    ensures var d := s.m.consumers[k].held.ticket;
      if d < s.m.enqueueTicket
      then s'.l.freed == s.l.freed + {d} && s'.l.stranded == s.l.stranded
      else s'.l.freed == s.l.freed && s'.l.stranded == s.l.stranded + {d}
  {
    if s.m.consumers[k].held.ticket < s.m.enqueueTicket {
      s' := ReadsThrough(c, s, k, fuel);
    } else {
      s' := StrandThrough(c, s, k, fuel);
    }
  }

  lemma {:induction false} StrandThrough(c: Config, s: State, k: nat, fuel: nat) returns (s': State)
    requires Inv(c, s) && s.m.closed && k < c.consumers && s.m.consumers[k].at.CheckingClosed?
    requires s.m.consumers[k].held.ticket >= s.m.enqueueTicket && fuel >= 3
    ensures RunsTo(c, s, k, fuel, s') && Returned(c, s, s', k)
    ensures s'.l.freed == s.l.freed && s'.l.stranded == s.l.stranded + {s.m.consumers[k].held.ticket}
  {
    var s1 := Next(c, s, Advance(k));
    ConsumerKeeps(c, s, k);
    assert s1.m.consumers[k] == s.m.consumers[k].(at := LoadingFinal);
    var s2 := Next(c, s1, Advance(k));
    ConsumerKeeps(c, s1, k);
    assert s2.m.consumers[k] == s.m.consumers[k].(at := CountingStrand);
    var s3 := Next(c, s2, Advance(k));
    ConsumerKeeps(c, s2, k);
    assert s3.m.consumers[k].at.Resting?;
    s' := s3;
    OneStep(c, s2, k, fuel - 2, s3);
    OneStep(c, s1, k, fuel - 1, s3);
    OneStep(c, s, k, fuel, s3);
  }

  /** The claiming half of `pull` when a ticket is there to claim. */
  lemma {:induction false} ClaimThrough(c: Config, s: State, k: nat)
    returns (s2: State)
    requires Ended(c, s) && k < c.consumers
    requires s.m.consumers[k].held.Nothing? && s.m.dequeueTicket < s.m.enqueueTicket
    ensures Inv(c, s2) && s2.m.consumers[k].at.AtGate?
    ensures s2.m == s.m.(dequeueTicket := s.m.dequeueTicket + 1,
      consumers := s.m.consumers[k := s.m.consumers[k].(held := Claim(s.m.dequeueTicket), at := AtGate)])
    ensures s2.l == s.l.(claimants := s.l.claimants + [k])
    ensures WholePull(c, s, k) == Finish(c, s2, k, c.words + 6)
  {
    var s0 := Next(c, s, Pull(k));
    PullKeeps(c, s, k, Pull(k));
    assert s0.m.consumers[k] == s.m.consumers[k].(at := LoadedHead(s.m.dequeueTicket));
    var s1 := Next(c, s0, Advance(k));
    ConsumerKeeps(c, s0, k);
    assert s1.m.consumers[k] == s.m.consumers[k].(at := Claiming);
    s2 := Next(c, s1, Advance(k));
    ConsumerKeeps(c, s1, k);
    assert RunLength(c, s0, s1, s2, k, c.words + 8);
  }

  /** Two unfoldings of `Finish`. */
  predicate RunLength(c: Config, s0: State, s1: State, s2: State, k: nat, fuel: nat)
    requires s0.m.Shaped(c) && |s0.l.outcomes| == c.consumers && k < c.consumers
    requires s2.m.Shaped(c) && |s2.l.outcomes| == c.consumers
  {
    fuel >= 2 && Finish(c, s0, k, fuel) == Finish(c, s2, k, fuel - 2)
  }

  /** The frame or the strand that one whole `pull` accounts for, and nothing else. */
  ghost predicate OneMore(s: State, s': State) {
    || (|s'.l.freed| == |s.l.freed| + 1 && s'.l.stranded == s.l.stranded)
    || (s'.l.freed == s.l.freed && |s'.l.stranded| == |s.l.stranded| + 1)
  }

  lemma {:induction false} HeldPull(c: Config, s: State, k: nat)
    requires Ended(c, s) && k < c.consumers && s.m.consumers[k].held.Claim?
    ensures var s' := WholePull(c, s, k);
      && Inv(c, s') && OneMore(s, s')
      && s'.m.(gen := [], consumers := [], strandedClaims := 0) == s.m.(gen := [], consumers := [], strandedClaims := 0)
      && s'.m.consumers == s.m.consumers[k := s.m.consumers[k].(held := Nothing)]
  {
    var x := s.m.consumers[k];
    assert HeldOk(c, s, k) by {
      assert ConsumerOk(c, s, k);
    }
    var s0 := Next(c, s, Pull(k));
    PullKeeps(c, s, k, Pull(k));
    assert s0.m == Put(c, s.m, k, x.(at := AtGate)) && s0.l == s.l;
    var s' := GateThrough(c, s0, k, c.words + 8);
    assert s.m.consumers[k := x.(at := AtGate)][k := x.(held := Nothing, at := Resting)]
        == s.m.consumers[k := x.(held := Nothing)];
  }

  lemma {:induction false} FreshPull(c: Config, s: State, k: nat)
    requires Ended(c, s) && k < c.consumers
    requires s.m.consumers[k].held.Nothing? && s.m.dequeueTicket < s.m.enqueueTicket
    ensures var s' := WholePull(c, s, k);
      && Inv(c, s') && |s'.l.freed| == |s.l.freed| + 1 && s'.l.stranded == s.l.stranded
      && s'.m.(gen := [], dequeueTicket := 0, strandedClaims := 0)
         == s.m.(gen := [], dequeueTicket := 0, strandedClaims := 0)
      && s'.m.dequeueTicket == s.m.dequeueTicket + 1
  {
    var x, d := s.m.consumers[k], s.m.dequeueTicket;
    var s2 := ClaimThrough(c, s, k);
    var s' := GateThrough(c, s2, k, c.words + 6);
    assert d !in s.l.freed;
    assert s.m.consumers[k := s2.m.consumers[k]][k := x.(held := Nothing, at := Resting)] == s.m.consumers;
  }

  /** A whole `pull` by a consumer that is not drained either delivers a frame or gives up a strand,
      and brings the end nearer by exactly one. */
  lemma {:induction false} PullMakesProgress(c: Config, s: State, k: nat)
    requires Ended(c, s) && k < c.consumers && !IsDrained(c, s.m, k)
    ensures var s' := WholePull(c, s, k);
      Ended(c, s') && Remaining(s'.m) == Remaining(s.m) - 1 && OneMore(s, s')
  {
    var x := s.m.consumers[k];
    if x.held.Claim? {
      HeldPull(c, s, k);
      HoldingUpdate(s.m.consumers, k, x.(held := Nothing));
    } else {
      FreshPull(c, s, k);
    }
  }

  /** The state after a sequence of whole pulls. */
  function Pulls(c: Config, s: State, ks: seq<nat>): (s': State)
    requires s.m.Shaped(c) && |s.l.outcomes| == c.consumers && forall i :: 0 <= i < |ks| ==> ks[i] < c.consumers
    ensures s'.m.Shaped(c) && |s'.l.outcomes| == c.consumers
    decreases |ks|
  {
    if ks == [] then s else Pulls(c, WholePull(c, s, ks[0]), ks[1..])
  }

  /** Every pull in ks is made by a consumer that `isDrained` has just told to go on. */
  ghost predicate Undrained(c: Config, s: State, ks: seq<nat>)
    requires s.m.Shaped(c) && |s.l.outcomes| == c.consumers && forall i :: 0 <= i < |ks| ==> ks[i] < c.consumers
    decreases |ks|
  {
    ks != [] ==> !IsDrained(c, s.m, ks[0]) && Undrained(c, WholePull(c, s, ks[0]), ks[1..])
  }

  /** Draining terminates: consumers that pull only while not drained make at most `Remaining` pulls,
      in any order among them, and when they have made that many every consumer is drained. */
  lemma {:induction false} DrainTerminates(c: Config, s: State, ks: seq<nat>)
    requires Ended(c, s) && c.consumers > 0
    requires (forall i :: 0 <= i < |ks| ==> ks[i] < c.consumers) && Undrained(c, s, ks)
    ensures |ks| <= Remaining(s.m)
    ensures |ks| == Remaining(s.m) <==> AllDrained(c, Pulls(c, s, ks).m)
    decreases |ks|
  {
    if ks == [] {
      DrainedExact(c, s);
    } else {
      PullMakesProgress(c, s, ks[0]);
      DrainTerminates(c, WholePull(c, s, ks[0]), ks[1..]);
    }
  }

  ghost predicate AllDrained(c: Config, m: Machine)
    requires m.Shaped(c)
  {
    forall k: nat :: k < c.consumers ==> IsDrained(c, m, k)
  }

  /** Nothing remains exactly when every consumer's `isDrained` is true. */
  lemma {:induction false} DrainedExact(c: Config, s: State)
    requires Ended(c, s) && c.consumers > 0
    ensures Remaining(s.m) == 0 <==> AllDrained(c, s.m)
  {
    HoldingZero(s.m.consumers);
    if AllDrained(c, s.m) {
      assert IsDrained(c, s.m, 0);
      forall k | 0 <= k < |s.m.consumers| ensures s.m.consumers[k].held.Nothing? {
        assert IsDrained(c, s.m, k);
      }
    }
  }
}
