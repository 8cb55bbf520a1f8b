/** Over any interleaving of schedules, flushes, settled promises and drains, with any failure of the decoder, of the
    mapped range or of handing a frame over (`pushRaw`, `commitPush`): every accepted readback is accounted for once,
    and the retained image is exactly the ranges that were read. */
module ReadbackTheorems {
  import opened Int32
  import opened ReadbackSlots

  /** Where an accepted readback has got to. */
  datatype Fate = InSlot(i: nat) | Pushed | Dropped | Replaced

  /** One range that a drain merged, and the readback it came from. */
  datatype Merge = Merge(ticket: nat, slot: Slot, bytes: seq<Byte>)

  /** History no step reads: the fate of every accepted readback, which of them each slot holds, the order in
      which they were drained, and the merges made. */
  datatype Ledger = Ledger(fates: seq<Fate>, holder: seq<nat>, drained: seq<nat>, replaced: nat, merges: seq<Merge>)

  function Record(c: Config, s: Source, l: Ledger, e: Event): Ledger
    requires s.Shaped(c) && |l.holder| == c.count
  {
    match e
    case Schedule(offset, length) =>
      var i := Taken(c, s);
      if !RangeAccepted(c, offset, length) || i < 0 then l else
        var evicted := !s.slots[i].phase.Idle? && l.holder[i] < |l.fates|;
        l.(fates := (if evicted then l.fates[l.holder[i] := Replaced] else l.fates) + [InSlot(i)],
           holder := l.holder[i := |l.fates|], replaced := l.replaced + if s.slots[i].phase.Idle? then 0 else 1)
    case Drain(i, o) =>
      if !Ready(c, s, i) || l.holder[i] >= |l.fates| then l else
        var slot := s.slots[i];
        l.(fates := l.fates[l.holder[i] := if Publishes(c, slot, o) then Pushed else Dropped],
           drained := l.drained + [l.holder[i]],
           merges := if Merges(c, s, slot, o) then l.merges + [Merge(l.holder[i], slot, o.bytes.value)] else l.merges)
    case Flush => l
    case Resolve(_) => l
    case Reject(_, _) => l
  }

  datatype State = State(s: Source, l: Ledger)

  /** The state after any series of events. */
  function Run(c: Config, image: Option<seq<Byte>>, events: seq<Event>): (r: State)
    requires c.Valid() && (image.Some? ==> |image.value| == c.size)
    ensures r.s.Shaped(c) && |r.l.holder| == c.count
  {
    if events == [] then State(Initial(c, image), Ledger([], seq(c.count, _ => 0), [], 0, [])) else
      var r := Run(c, image, events[..|events| - 1]);
      var e := events[|events| - 1];
      RecordShaped(c, r.s, r.l, e);
      State(Step(c, r.s, e), Record(c, r.s, r.l, e))
  }

  lemma RecordShaped(c: Config, s: Source, l: Ledger, e: Event)
    requires s.Shaped(c) && |l.holder| == c.count
    ensures |Record(c, s, l, e).holder| == c.count
  {
  }

  // Each accepted readback is in one place

  /** A slot in use holds an accepted readback whose fate is that slot, and conversely. */
  ghost predicate Held(c: Config, s: Source, l: Ledger) {
    && |s.slots| == |l.holder| == c.count
    && (forall i :: 0 <= i < c.count && !s.slots[i].phase.Idle? ==>
          l.holder[i] < |l.fates| && l.fates[l.holder[i]] == InSlot(i))
    && (forall t :: 0 <= t < |l.fates| && l.fates[t].InSlot? ==>
          l.fates[t].i < c.count && !s.slots[l.fates[t].i].phase.Idle? && l.holder[l.fates[t].i] == t)
  }

  predicate Ended(f: Fate) {
    f.Pushed? || f.Dropped?
  }

  /** The drained readbacks are those pushed or dropped, each once. */
  ghost predicate DrainedOnce(l: Ledger) {
    && (forall k :: 0 <= k < |l.drained| ==> l.drained[k] < |l.fates| && Ended(l.fates[l.drained[k]]))
    && (forall j, k :: 0 <= j < k < |l.drained| ==> l.drained[j] != l.drained[k])
    && (forall t :: 0 <= t < |l.fates| && Ended(l.fates[t]) ==> t in l.drained)
  }

  function Count(fates: seq<Fate>, f: Fate): nat {
    if fates == [] then 0
    else Count(fates[..|fates| - 1], f) + (if fates[|fates| - 1] == f then 1 else 0)
  }

  lemma {:induction false} CountUpdate(fates: seq<Fate>, t: nat, f: Fate, g: Fate)
    requires t < |fates|
    ensures Count(fates[t := g], f)
         == Count(fates, f) - (if fates[t] == f then 1 else 0) + (if g == f then 1 else 0)
    decreases |fates|
  {
    var n := |fates| - 1;
    if t < n {
      CountUpdate(fates[..n], t, f, g);
      assert fates[t := g][..n] == fates[..n][t := g];
    } else {
      assert fates[t := g][..n] == fates[..n];
    }
  }

  lemma {:induction false} NonIdleUpdate(slots: seq<Slot>, i: nat, slot: Slot)
    requires i < |slots|
    ensures NonIdle(slots[i := slot])
         == NonIdle(slots) - (if slots[i].phase.Idle? then 0 else 1) + (if slot.phase.Idle? then 0 else 1)
    decreases |slots|
  {
    var n := |slots| - 1;
    if i < n {
      NonIdleUpdate(slots[..n], i, slot);
      assert slots[i := slot][..n] == slots[..n][i := slot];
    } else {
      assert slots[i := slot][..n] == slots[..n];
    }
  }

  lemma {:induction false} NonIdleFlushed(slots: seq<Slot>)
    ensures NonIdle(Flushed(slots)) == NonIdle(slots)
    decreases |slots|
  {
    if slots != [] {
      NonIdleFlushed(slots[..|slots| - 1]);
      assert Flushed(slots)[..|slots| - 1] == Flushed(slots[..|slots| - 1]);
    }
  }

  /** The class's counters are the numbers of fates, wrapped to 32 bits. */
  ghost predicate Counted(s: Source, l: Ledger) {
    && s.pushed == ToInt32(Count(l.fates, Pushed)) && s.dropped == ToInt32(Count(l.fates, Dropped))
    && s.coalesced == ToInt32(Count(l.fates, Replaced))
  }

  ghost predicate Balanced(s: Source, l: Ledger) {
    && l.replaced == Count(l.fates, Replaced)
    && |l.drained| == Count(l.fates, Pushed) + Count(l.fates, Dropped)
    && |l.fates| == |l.drained| + l.replaced + NonIdle(s.slots)
  }

  ghost predicate Inv(c: Config, s: Source, l: Ledger) {
    s.Shaped(c) && Held(c, s, l) && DrainedOnce(l) && Counted(s, l) && Balanced(s, l)
  }

  // Steps that only move slots between phases

  predicate SameUse(slots: seq<Slot>, slots': seq<Slot>) {
    |slots'| == |slots| && forall i :: 0 <= i < |slots| ==> (slots'[i].phase.Idle? <==> slots[i].phase.Idle?)
  }

  lemma HeldSameUse(c: Config, s: Source, l: Ledger, s': Source)
    requires Held(c, s, l) && SameUse(s.slots, s'.slots)
    ensures Held(c, s', l)
  {
  }

  lemma SameUseKeeps(c: Config, s: Source, l: Ledger, slots: seq<Slot>)
    requires Inv(c, s, l) && s.(slots := slots).Shaped(c)
    requires SameUse(s.slots, slots) && NonIdle(slots) == NonIdle(s.slots)
    ensures Inv(c, s.(slots := slots), l)
  {
    HeldSameUse(c, s, l, s.(slots := slots));
  }

  lemma SettleKeeps(c: Config, s: Source, l: Ledger, i: nat, phase: Phase)
    requires Inv(c, s, l) && Pending(s, i) && !phase.Idle?
    ensures Inv(c, s.(slots := s.slots[i := s.slots[i].(phase := phase)]), l)
  {
    NonIdleUpdate(s.slots, i, s.slots[i].(phase := phase));
    SameUseKeeps(c, s, l, s.slots[i := s.slots[i].(phase := phase)]);
  }

  lemma PhaseKeeps(c: Config, s: Source, l: Ledger, e: Event)
    requires Inv(c, s, l) && (e.Flush? || e.Resolve? || e.Reject?)
    ensures Inv(c, Step(c, s, e), Record(c, s, l, e))
  {
    match e
    case Flush =>
      NonIdleFlushed(s.slots);
      SameUseKeeps(c, s, l, Flushed(s.slots));
    case Resolve(i) =>
      if Pending(s, i) {
        SettleKeeps(c, s, l, i, InFlight(true, false));
      }
    case Reject(i, defined) =>
      if Pending(s, i) {
        SettleKeeps(c, s, l, i, InFlight(true, defined));
      }
  }

  // Drains

  lemma DrainHeld(c: Config, s: Source, l: Ledger, i: nat, o: Outcome)
    requires s.Shaped(c) && Held(c, s, l) && Ready(c, s, i)
    ensures var l' := Record(c, s, l, Drain(i, o));
      && Held(c, Draining(c, s, i, o), l')
      && l'.fates == l.fates[l.holder[i] := if Publishes(c, s.slots[i], o) then Pushed else Dropped]
  {
    var s', l' := Draining(c, s, i, o), Record(c, s, l, Drain(i, o));
    forall j | 0 <= j < c.count && !s'.slots[j].phase.Idle?
      ensures l'.holder[j] < |l'.fates| && l'.fates[l'.holder[j]] == InSlot(j)
    {
      assert l.fates[l.holder[j]] == InSlot(j) && l.fates[l.holder[i]] == InSlot(i);
    }
  }

  lemma DrainOnce(c: Config, s: Source, l: Ledger, i: nat, o: Outcome)
    requires Inv(c, s, l) && Ready(c, s, i)
    ensures DrainedOnce(Record(c, s, l, Drain(i, o)))
  {
    var t, l' := l.holder[i], Record(c, s, l, Drain(i, o));
    assert l.fates[t] == InSlot(i);
    assert forall k :: 0 <= k < |l.drained| ==> l.drained[k] != t;
    assert l'.drained[|l.drained|] == t;
    forall u | 0 <= u < |l'.fates| && Ended(l'.fates[u]) ensures u in l'.drained {
      if u != t {
        assert Ended(l.fates[u]);
      }
    }
  }

  predicate Ends(fates: seq<Fate>, fates': seq<Fate>, p: bool) {
    && Count(fates', Pushed) == Count(fates, Pushed) + (if p then 1 else 0)
    && Count(fates', Dropped) == Count(fates, Dropped) + (if p then 0 else 1)
    && Count(fates', Replaced) == Count(fates, Replaced) && |fates'| == |fates|
  }

  lemma DrainFates(c: Config, s: Source, l: Ledger, i: nat, o: Outcome)
    requires s.Shaped(c) && Held(c, s, l) && Ready(c, s, i)
    ensures Ends(l.fates, Record(c, s, l, Drain(i, o)).fates, Publishes(c, s.slots[i], o))
  {
    var t, f := l.holder[i], if Publishes(c, s.slots[i], o) then Pushed else Dropped;
    assert l.fates[t] == InSlot(i);
    CountUpdate(l.fates, t, Pushed, f);
    CountUpdate(l.fates, t, Dropped, f);
    CountUpdate(l.fates, t, Replaced, f);
  }

  lemma DrainEffect(c: Config, s: Source, i: nat, o: Outcome)
    requires s.Shaped(c) && Ready(c, s, i)
    ensures var s', p := Draining(c, s, i, o), Publishes(c, s.slots[i], o);
      && s'.pushed == (if p then ToInt32(s.pushed + 1) else s.pushed)
      && s'.dropped == (if p then s.dropped else ToInt32(s.dropped + 1))
      && s'.coalesced == s.coalesced && s'.slots == s.slots[i := Slot(Idle, 0, c.size)]
  {
  }

  lemma Bumped(x: int, n: nat)
    requires x == ToInt32(n)
    ensures ToInt32(x + 1) == ToInt32(n + 1)
  {
    ToInt32Add(n, 1);
  }

  lemma EndsCounted(s: Source, l: Ledger, s': Source, l': Ledger, p: bool)
    requires Counted(s, l) && Ends(l.fates, l'.fates, p) && s'.coalesced == s.coalesced
    requires s'.pushed == (if p then ToInt32(s.pushed + 1) else s.pushed)
    requires s'.dropped == (if p then s.dropped else ToInt32(s.dropped + 1))
    ensures Counted(s', l')
  {
    Bumped(s.pushed, Count(l.fates, Pushed));
    Bumped(s.dropped, Count(l.fates, Dropped));
  }

  lemma EndsBalanced(s: Source, l: Ledger, s': Source, l': Ledger, p: bool)
    requires Balanced(s, l) && Ends(l.fates, l'.fates, p) && |l'.drained| == |l.drained| + 1
    requires l'.replaced == l.replaced && NonIdle(s'.slots) == NonIdle(s.slots) - 1
    ensures Balanced(s', l')
  {
  }

  lemma DrainNumbers(c: Config, s: Source, l: Ledger, i: nat, o: Outcome)
    requires Inv(c, s, l) && Ready(c, s, i)
    ensures var s', l' := Draining(c, s, i, o), Record(c, s, l, Drain(i, o)); Counted(s', l') && Balanced(s', l')
  {
    var s', l', p := Draining(c, s, i, o), Record(c, s, l, Drain(i, o)), Publishes(c, s.slots[i], o);
    DrainFates(c, s, l, i, o);
    DrainEffect(c, s, i, o);
    NonIdleUpdate(s.slots, i, Slot(Idle, 0, c.size));
    assert l.fates[l.holder[i]] == InSlot(i);
    EndsCounted(s, l, s', l', p);
    EndsBalanced(s, l, s', l', p);
  }

  // Schedules

  lemma ScheduleHeld(c: Config, s: Source, l: Ledger, offset: nat, length: nat)
    requires s.Shaped(c) && Held(c, s, l) && RangeAccepted(c, offset, length) && Taken(c, s) >= 0
    ensures Held(c, Scheduling(c, s, offset, length), Record(c, s, l, Schedule(offset, length)))
  {
    var i := Taken(c, s);
    var s', l' := Scheduling(c, s, offset, length), Record(c, s, l, Schedule(offset, length));
    forall j | 0 <= j < c.count && !s'.slots[j].phase.Idle?
      ensures l'.holder[j] < |l'.fates| && l'.fates[l'.holder[j]] == InSlot(j)
    {
      if j != i {
        assert l.fates[l.holder[j]] == InSlot(j);
        assert !s.slots[i].phase.Idle? ==> l.fates[l.holder[i]] == InSlot(i);
      }
    }
  }

  lemma ScheduleOnce(c: Config, s: Source, l: Ledger, offset: nat, length: nat)
    requires Inv(c, s, l) && RangeAccepted(c, offset, length) && Taken(c, s) >= 0
    ensures DrainedOnce(Record(c, s, l, Schedule(offset, length)))
  {
    var i, l' := Taken(c, s), Record(c, s, l, Schedule(offset, length));
    assert !s.slots[i].phase.Idle? ==> l.fates[l.holder[i]] == InSlot(i);
    forall t | 0 <= t < |l'.fates| && Ended(l'.fates[t]) ensures t in l'.drained {
      assert t < |l.fates| && Ended(l.fates[t]);
    }
  }

  predicate Joins(fates: seq<Fate>, fates': seq<Fate>, evicts: bool) {
    && Count(fates', Pushed) == Count(fates, Pushed) && Count(fates', Dropped) == Count(fates, Dropped)
    && Count(fates', Replaced) == Count(fates, Replaced) + (if evicts then 1 else 0)
    && |fates'| == |fates| + 1
  }

  lemma ScheduleFates(c: Config, s: Source, l: Ledger, offset: nat, length: nat)
    requires s.Shaped(c) && Held(c, s, l) && RangeAccepted(c, offset, length) && Taken(c, s) >= 0
    ensures Joins(l.fates, Record(c, s, l, Schedule(offset, length)).fates, !s.slots[Taken(c, s)].phase.Idle?)
  {
    var i, fates' := Taken(c, s), Record(c, s, l, Schedule(offset, length)).fates;
    var n := |fates'| - 1;
    if s.slots[i].phase.Idle? {
      assert fates'[..n] == l.fates;
    } else {
      var t := l.holder[i];
      assert l.fates[t] == InSlot(i);
      assert fates'[..n] == l.fates[t := Replaced];
      CountUpdate(l.fates, t, Pushed, Replaced);
      CountUpdate(l.fates, t, Dropped, Replaced);
      CountUpdate(l.fates, t, Replaced, Replaced);
    }
  }

  lemma JoinsNumbers(s: Source, l: Ledger, s': Source, l': Ledger, evicts: bool)
    requires Counted(s, l) && Balanced(s, l) && Joins(l.fates, l'.fates, evicts)
    requires s'.pushed == s.pushed && s'.dropped == s.dropped && l'.drained == l.drained
    requires s'.coalesced == (if evicts then ToInt32(s.coalesced + 1) else s.coalesced)
    requires l'.replaced == l.replaced + (if evicts then 1 else 0)
    requires NonIdle(s'.slots) == NonIdle(s.slots) + (if evicts then 0 else 1)
    ensures Counted(s', l') && Balanced(s', l')
  {
    Bumped(s.coalesced, Count(l.fates, Replaced));
  }

  lemma ScheduleEffect(c: Config, s: Source, l: Ledger, offset: nat, length: nat)
    requires s.Shaped(c) && |l.holder| == c.count && RangeAccepted(c, offset, length) && Taken(c, s) >= 0
    ensures var s', l' := Scheduling(c, s, offset, length), Record(c, s, l, Schedule(offset, length));
      var i := Taken(c, s);
      && s'.pushed == s.pushed && s'.dropped == s.dropped && l'.drained == l.drained
      && s'.coalesced == (if s.slots[i].phase.Idle? then s.coalesced else ToInt32(s.coalesced + 1))
      && l'.replaced == l.replaced + (if s.slots[i].phase.Idle? then 0 else 1)
      && s'.slots == s.slots[i := Slot(Scheduled(s.serial + 1), offset, length)]
  {
  }

  lemma ScheduleNumbers(c: Config, s: Source, l: Ledger, offset: nat, length: nat)
    requires Inv(c, s, l) && RangeAccepted(c, offset, length) && Taken(c, s) >= 0
    ensures var s', l' := Scheduling(c, s, offset, length), Record(c, s, l, Schedule(offset, length));
      Counted(s', l') && Balanced(s', l')
  {
    ScheduleFates(c, s, l, offset, length);
    ScheduleEffect(c, s, l, offset, length);
    NonIdleUpdate(s.slots, Taken(c, s), Slot(Scheduled(s.serial + 1), offset, length));
    JoinsNumbers(s, l, Scheduling(c, s, offset, length), Record(c, s, l, Schedule(offset, length)),
      !s.slots[Taken(c, s)].phase.Idle?);
  }

  lemma StepKeeps(c: Config, s: Source, l: Ledger, e: Event)
    requires Inv(c, s, l)
    ensures Inv(c, Step(c, s, e), Record(c, s, l, e))
  {
    match e
    case Drain(i, o) =>
      if Ready(c, s, i) {
        DrainHeld(c, s, l, i, o);
        DrainOnce(c, s, l, i, o);
        DrainNumbers(c, s, l, i, o);
      }
    case Schedule(offset, length) =>
      if RangeAccepted(c, offset, length) && Taken(c, s) >= 0 {
        ScheduleHeld(c, s, l, offset, length);
        ScheduleOnce(c, s, l, offset, length);
        ScheduleNumbers(c, s, l, offset, length);
      }
    case _ => PhaseKeeps(c, s, l, e);
  }

  lemma {:induction false} NoneInUse(c: Config, n: nat)
    ensures NonIdle(seq(n, _ => Slot(Idle, 0, c.size))) == 0
  {
    if n > 0 {
      NoneInUse(c, n - 1);
      assert seq(n, _ => Slot(Idle, 0, c.size))[..n - 1] == seq(n - 1, _ => Slot(Idle, 0, c.size));
    }
  }

  lemma {:induction false} RunKeeps(c: Config, image: Option<seq<Byte>>, events: seq<Event>)
    requires c.Valid() && (image.Some? ==> |image.value| == c.size)
    ensures var r := Run(c, image, events); Inv(c, r.s, r.l)
    decreases |events|
  {
    if events == [] {
      NoneInUse(c, c.count);
    } else {
      var before := Run(c, image, events[..|events| - 1]);
      RunKeeps(c, image, events[..|events| - 1]);
      StepKeeps(c, before.s, before.l, events[|events| - 1]);
    }
  }

  /** Conservation: every accepted readback was pushed, dropped or replaced by a newer one, or sits in a slot;
      and the class's counters are those numbers, wrapped to 32 bits. */
  lemma Conservation(c: Config, image: Option<seq<Byte>>, events: seq<Event>)
    requires c.Valid() && (image.Some? ==> |image.value| == c.size)
    ensures var r := Run(c, image, events); var fates := r.l.fates;
      && |fates| == Count(fates, Pushed) + Count(fates, Dropped) + Count(fates, Replaced) + NonIdle(r.s.slots)
      && r.s.pushed == ToInt32(Count(fates, Pushed)) && r.s.dropped == ToInt32(Count(fates, Dropped))
      && r.s.coalesced == ToInt32(Count(fates, Replaced))
  {
    RunKeeps(c, image, events);
  }

  /** A readback is drained at most once, and exactly when it was pushed or dropped. */
  lemma DrainedAtMostOnce(c: Config, image: Option<seq<Byte>>, events: seq<Event>, t: nat)
    requires c.Valid() && (image.Some? ==> |image.value| == c.size)
    ensures var l := Run(c, image, events).l;
      && (t in l.drained <==> t < |l.fates| && Ended(l.fates[t]))
      && (forall j, k :: 0 <= j < |l.drained| && 0 <= k < |l.drained| && l.drained[j] == t == l.drained[k] ==> j == k)
  {
    RunKeeps(c, image, events);
  }

  // The retained image

  /** The image after merges made in order. */
  function Painted(image: seq<Byte>, merges: seq<Merge>): (image': seq<Byte>)
    ensures |image'| == |image|
  {
    if merges == [] then image else
      var before, m := Painted(image, merges[..|merges| - 1]), merges[|merges| - 1];
      if |m.bytes| == |image| && m.slot.offset + m.slot.length <= |image|
      then Merged(before, m.bytes, m.slot) else before
  }

  predicate Covers(m: Merge, k: nat) {
    m.slot.offset <= k < m.slot.offset + m.slot.length && k < |m.bytes|
  }

  /** A byte of the painted image comes from the last merge whose range covers it. */
  lemma {:induction false} LastMergeWins(image: seq<Byte>, merges: seq<Merge>, j: nat, k: nat)
    requires j < |merges| && k < |image| && Covers(merges[j], k)
    requires forall i :: 0 <= i < |merges| ==>
      |merges[i].bytes| == |image| && merges[i].slot.offset + merges[i].slot.length <= |image|
    requires forall i :: j < i < |merges| ==> !Covers(merges[i], k)
    ensures Painted(image, merges)[k] == merges[j].bytes[k]
    decreases |merges|
  {
    if j < |merges| - 1 {
      LastMergeWins(image, merges[..|merges| - 1], j, k);
    }
  }

  function Ground(c: Config, image: Option<seq<Byte>>): seq<Byte> {
    if image.Some? then image.value else Zeros(c.size)
  }

  /** Every merge belongs to a different drained readback. */
  ghost predicate Ticketed(l: Ledger) {
    && (forall m :: 0 <= m < |l.merges| ==> l.merges[m].ticket in l.drained)
    && (forall m, n :: 0 <= m < n < |l.merges| ==> l.merges[m].ticket != l.merges[n].ticket)
  }

  ghost predicate Pictured(c: Config, image: Option<seq<Byte>>, r: State) {
    && |Ground(c, image)| == c.size && Ticketed(r.l)
    && (r.s.retained.None? ==> image.None? && r.l.merges == [])
    && (r.s.retained.Some? ==> r.s.retained.value == Painted(Ground(c, image), r.l.merges))
  }

  lemma TicketedMore(l: Ledger, l': Ledger, t: nat, merges: seq<Merge>)
    requires Ticketed(l) && t !in l.drained && l'.drained == l.drained + [t] && l'.merges == l.merges + merges
    requires |merges| <= 1 && forall m :: 0 <= m < |merges| ==> merges[m].ticket == t
    ensures Ticketed(l')
  {
    assert l'.drained[|l.drained|] == t;
    forall u | u in l.drained ensures u in l'.drained {
      var k :| 0 <= k < |l.drained| && l.drained[k] == u;
      assert l'.drained[k] == u;
    }
    forall m | 0 <= m < |l'.merges| ensures l'.merges[m].ticket in l'.drained {
      if m < |l.merges| {
        assert l.merges[m].ticket in l.drained;
      }
    }
  }

  lemma DrainTicketed(c: Config, s: Source, l: Ledger, i: nat, o: Outcome)
    requires s.Shaped(c) && Held(c, s, l) && DrainedOnce(l) && Ticketed(l) && Ready(c, s, i)
    ensures Ticketed(Record(c, s, l, Drain(i, o)))
  {
    var t := l.holder[i];
    assert l.fates[t] == InSlot(i);
    assert t !in l.drained;
    var added := if Merges(c, s, s.slots[i], o) then [Merge(t, s.slots[i], o.bytes.value)] else [];
    TicketedMore(l, Record(c, s, l, Drain(i, o)), t, added);
  }

  lemma PaintedMore(image: seq<Byte>, merges: seq<Merge>, m: Merge)
    requires |m.bytes| == |image| && m.slot.offset + m.slot.length <= |image|
    ensures Painted(image, merges + [m]) == Merged(Painted(image, merges), m.bytes, m.slot)
    ensures Painted(image, []) == image
  {
    assert (merges + [m])[..|merges|] == merges;
  }

  lemma DrainImage(c: Config, image: Option<seq<Byte>>, r: State, i: nat, o: Outcome)
    requires Held(c, r.s, r.l) && r.s.Shaped(c) && Pictured(c, image, r) && Ready(c, r.s, i)
    ensures var s', l' := Draining(c, r.s, i, o), Record(c, r.s, r.l, Drain(i, o));
      && (s'.retained.None? ==> image.None? && l'.merges == [])
      && (s'.retained.Some? ==> s'.retained.value == Painted(Ground(c, image), l'.merges))
  {
    assert r.l.fates[r.l.holder[i]] == InSlot(i);
    if Merges(c, r.s, r.s.slots[i], o) {
      PaintedMore(Ground(c, image), r.l.merges, Merge(r.l.holder[i], r.s.slots[i], o.bytes.value));
    }
  }

  lemma StepPictured(c: Config, image: Option<seq<Byte>>, r: State, e: Event)
    requires Inv(c, r.s, r.l) && Pictured(c, image, r)
    ensures Pictured(c, image, State(Step(c, r.s, e), Record(c, r.s, r.l, e)))
  {
    if e.Drain? && Ready(c, r.s, e.i) {
      DrainTicketed(c, r.s, r.l, e.i, e.outcome);
      DrainImage(c, image, r, e.i, e.outcome);
    }
  }

  /** After any events the retained image is the initial one painted with the merged ranges in drain order; a
      readback is merged at most once, and only when it is drained. */
  lemma {:induction false} ImageIsMergedRanges(c: Config, image: Option<seq<Byte>>, events: seq<Event>)
    requires c.Valid() && (image.Some? ==> |image.value| == c.size)
    ensures Pictured(c, image, Run(c, image, events))
    decreases |events|
  {
    if events != [] {
      ImageIsMergedRanges(c, image, events[..|events| - 1]);
      RunKeeps(c, image, events[..|events| - 1]);
      StepPictured(c, image, Run(c, image, events[..|events| - 1]), events[|events| - 1]);
    }
  }
}
