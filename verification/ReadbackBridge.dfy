/** The bridge's side of the readbacks: which of them it took, by its own answers, and which bytes it was handed. */
module ReadbackBridge {
  import opened Int32
  import opened ReadbackSlots
  import opened ReadbackTheorems

  /** The mapped range was there to be read: the map did not fail, and `readMapped` returned it. */
  predicate HasRange(c: Config, slot: Slot, o: Outcome) {
    slot.phase == InFlight(true, false) && o.bytes.Some? && |o.bytes.value| == c.size
  }

  /** The bridge has taken a frame: `pushRaw` answered true; or `beginPush` granted a slot, and the decoder and
      `commitPush` came through. */
  predicate Takes(c: Config, slot: Slot, o: Outcome) {
    && HasRange(c, slot, o)
    && (c.raw ==> o.push == Accepted)
    && (!c.raw ==> o.granted && !o.decoderThrows && (o.push == Accepted || o.push == Refused))
  }

  /** Byte k of the frame that `_readMappedFrameBytes` makes of the image and the slot's range. */
  function ByteAt(image: Option<seq<Byte>>, slot: Slot, bytes: seq<Byte>, k: nat): Byte
    requires k < |bytes| && (image.Some? ==> |image.value| == |bytes|)
  {
    if slot.offset <= k < slot.offset + slot.length then bytes[k] else if image.Some? then image.value[k] else 0
  }

  predicate Frames(image: Option<seq<Byte>>, slot: Slot, bytes: seq<Byte>, frame: seq<Byte>) {
    && |frame| == |bytes| && (image.Some? ==> |image.value| == |bytes|)
    && forall k :: 0 <= k < |frame| ==> frame[k] == ByteAt(image, slot, bytes, k)
  }

  /** Whether a drain leaves a retained image that it did not find, or changes it: a partial range always does when it
      can be read, a whole frame only an image that is there. A bridge that is full makes no difference, nor does
      anything that throws after the range was read. */
  predicate Updates(c: Config, image: Option<seq<Byte>>, slot: Slot, o: Outcome) {
    HasRange(c, slot, o) && (image.Some? || slot.offset != 0 || slot.length != c.size)
  }

  /** One drain, without a word about how it decides. */
  lemma DrainExact(c: Config, s: Source, i: nat, o: Outcome)
    requires s.Shaped(c) && Ready(c, s, i)
    ensures var s', slot := Draining(c, s, i, o), s.slots[i];
      && s'.pushed == (if Takes(c, slot, o) then ToInt32(s.pushed + 1) else s.pushed)
      && s'.dropped == (if Takes(c, slot, o) then s.dropped else ToInt32(s.dropped + 1))
      && s'.slots[i].phase.Idle? && (forall j :: 0 <= j < c.count && j != i ==> s'.slots[j] == s.slots[j])
      && (!Updates(c, s.retained, slot, o) ==>
            s'.retained == s.retained && s'.partials == s.partials && s'.partialBytes == s.partialBytes)
      && (Updates(c, s.retained, slot, o) ==>
            && s'.retained.Some? && Frames(s.retained, slot, o.bytes.value, s'.retained.value)
            && var partial := slot.offset != 0 || slot.length != c.size;
               && s'.partials == (if partial then ToInt32(s.partials + 1) else s.partials)
               && s'.partialBytes == s.partialBytes + if partial then slot.length else 0)
  {
    assert Publishes(c, s.slots[i], o) == Takes(c, s.slots[i], o);
    assert Merges(c, s, s.slots[i], o) == Updates(c, s.retained, s.slots[i], o);
  }

  /** A whole frame that arrives while the bridge is full still replaces the retained image, if there is one. */
  lemma FullFrameMerged(c: Config, s: Source, i: nat, o: Outcome)
    requires s.Shaped(c) && Ready(c, s, i) && IsFull(c, s.slots[i]) && HasRange(c, s.slots[i], o)
    ensures var s' := Draining(c, s, i, o); s'.retained == if s.retained.Some? then o.bytes else None
  {
    DrainExact(c, s, i, o);
    if s.retained.Some? {
      assert Draining(c, s, i, o).retained.value == o.bytes.value;
    }
  }

  /** What the bridge was handed and took: the readback, and the frame. */
  datatype Handover = Handover(ticket: nat, frame: seq<Byte>)

  function FrameFor(c: Config, image: Option<seq<Byte>>, slot: Slot, bytes: seq<Byte>): (frame: seq<Byte>)
    requires |bytes| == c.size && (image.Some? ==> |image.value| == |bytes|)
    ensures |frame| == |bytes| && Frames(image, slot, bytes, frame)
  {
    seq(|bytes|, k requires 0 <= k < |bytes| => ByteAt(image, slot, bytes, k))
  }

  function HandedOver(c: Config, r: State, e: Event): seq<Handover>
    requires r.s.Shaped(c) && |r.l.holder| == c.count
  {
    if e.Drain? && Ready(c, r.s, e.i) && Takes(c, r.s.slots[e.i], e.outcome)
    then [Handover(r.l.holder[e.i], FrameFor(c, r.s.retained, r.s.slots[e.i], e.outcome.bytes.value))]
    else []
  }

  /** The bridge's history. */
  function Taken(c: Config, image: Option<seq<Byte>>, events: seq<Event>): seq<Handover>
    requires c.Valid() && (image.Some? ==> |image.value| == c.size)
  {
    if events == [] then [] else
      var before := events[..|events| - 1];
      Taken(c, image, before) + HandedOver(c, Run(c, image, before), events[|events| - 1])
  }

  predicate Handed(hs: seq<Handover>, t: nat) {
    exists k :: 0 <= k < |hs| && hs[k].ticket == t
  }

  ghost predicate Matches(l: Ledger, hs: seq<Handover>) {
    && (forall t: nat :: Handed(hs, t) <==> t < |l.fates| && l.fates[t].Pushed?)
    && (forall j, k :: 0 <= j < k < |hs| ==> hs[j].ticket != hs[k].ticket)
  }

  lemma HandedMore(hs: seq<Handover>, h: Handover, t: nat)
    ensures Handed(hs + [h], t) <==> Handed(hs, t) || h.ticket == t
  {
    if h.ticket == t {
      assert (hs + [h])[|hs|].ticket == t;
    }
    if Handed(hs, t) {
      var k :| 0 <= k < |hs| && hs[k].ticket == t;
      assert (hs + [h])[k].ticket == t;
    }
  }

  lemma DrainMatches(c: Config, r: State, hs: seq<Handover>, e: Event)
    requires Inv(c, r.s, r.l) && Matches(r.l, hs) && e.Drain? && Ready(c, r.s, e.i)
    ensures Matches(Record(c, r.s, r.l, e), hs + HandedOver(c, r, e))
  {
    var slot, l' := r.s.slots[e.i], Record(c, r.s, r.l, e);
    var h := r.l.holder[e.i];
    assert r.l.fates[h] == InSlot(e.i);
    assert l'.fates == r.l.fates[h := if Publishes(c, slot, e.outcome) then Pushed else Dropped];
    assert Publishes(c, slot, e.outcome) == Takes(c, slot, e.outcome);
    assert !Handed(hs, h);
    var more := HandedOver(c, r, e);
    if more == [] {
      assert hs + more == hs;
    } else {
      assert forall k :: 0 <= k < |hs| ==> hs[k].ticket != h;
      forall t: nat ensures Handed(hs + more, t) <==> t < |l'.fates| && l'.fates[t].Pushed? {
        HandedMore(hs, more[0], t);
      }
    }
  }

  lemma StepMatches(c: Config, r: State, hs: seq<Handover>, e: Event)
    requires Inv(c, r.s, r.l) && Matches(r.l, hs)
    ensures Matches(Record(c, r.s, r.l, e), hs + HandedOver(c, r, e))
  {
    if e.Drain? && Ready(c, r.s, e.i) {
      DrainMatches(c, r, hs, e);
    } else {
      assert hs + HandedOver(c, r, e) == hs;
      forall t: nat ensures (t < |r.l.fates| && r.l.fates[t].Pushed?)
        <==> (t < |Record(c, r.s, r.l, e).fates| && Record(c, r.s, r.l, e).fates[t].Pushed?)
      {
        SamePushed(c, r, e, t);
      }
    }
  }

  lemma SamePushed(c: Config, r: State, e: Event, t: nat)
    requires Inv(c, r.s, r.l) && !(e.Drain? && Ready(c, r.s, e.i))
    ensures var fates' := Record(c, r.s, r.l, e).fates;
      (t < |r.l.fates| && r.l.fates[t].Pushed?) <==> (t < |fates'| && fates'[t].Pushed?)
  {
    if e.Schedule? && RangeAccepted(c, e.offset, e.length) {
      var i := ReadbackSlots.Taken(c, r.s);
      assert i >= 0 && !r.s.slots[i].phase.Idle? ==> r.l.fates[r.l.holder[i]] == InSlot(i);
    }
  }

  /** In every run the readbacks counted as pushed are exactly those that the bridge took, each once. */
  lemma {:induction false} PushedExactly(c: Config, image: Option<seq<Byte>>, events: seq<Event>)
    requires c.Valid() && (image.Some? ==> |image.value| == c.size)
    ensures Matches(Run(c, image, events).l, Taken(c, image, events))
    decreases |events|
  {
    if events != [] {
      var before := events[..|events| - 1];
      PushedExactly(c, image, before);
      RunKeeps(c, image, before);
      StepMatches(c, Run(c, image, before), Taken(c, image, before), events[|events| - 1]);
    }
  }

  /** The frame that the bridge takes is the retained image as the drain leaves it; only a source that has never had to
      retain one hands over the mapped bytes themselves. */
  lemma {:induction false} FrameIsImage(c: Config, image: Option<seq<Byte>>, events: seq<Event>)
    requires c.Valid() && (image.Some? ==> |image.value| == c.size)
    requires events != [] && HandedOver(c, Run(c, image, events[..|events| - 1]), events[|events| - 1]) != []
    ensures var hs, s := Taken(c, image, events), Run(c, image, events).s;
      hs != [] && |hs[|hs| - 1].frame| == c.size
      && (s.retained.Some? ==> hs[|hs| - 1].frame == s.retained.value)
      && (s.retained.None? ==> Some(hs[|hs| - 1].frame) == events[|events| - 1].outcome.bytes)
  {
    var r, e := Run(c, image, events[..|events| - 1]), events[|events| - 1];
    DrainExact(c, r.s, e.i, e.outcome);
    var frame := HandedOver(c, r, e)[0].frame;
    var s := Run(c, image, events).s;
    if s.retained.Some? {
      SameFrame(r.s.retained, r.s.slots[e.i], e.outcome.bytes.value, frame, s.retained.value);
    } else {
      assert frame == e.outcome.bytes.value;
    }
  }

  lemma SameFrame(image: Option<seq<Byte>>, slot: Slot, bytes: seq<Byte>, frame: seq<Byte>, frame': seq<Byte>)
    requires Frames(image, slot, bytes, frame) && Frames(image, slot, bytes, frame')
    ensures frame == frame'
  {
  }

  // Which slot a readback gets

  lemma {:induction false} InUseAll(slots: seq<Slot>)
    ensures NonIdle(slots) == |slots| <==> forall i :: 0 <= i < |slots| ==> !slots[i].phase.Idle?
    decreases |slots|
  {
    if slots != [] {
      var before := slots[..|slots| - 1];
      InUseAll(before);
      assert slots == before + [slots[|slots| - 1]];
    }
  }

  /** All slots but one are in use, or all are, exactly if no two are idle. */
  lemma {:induction false} InUseButOne(slots: seq<Slot>)
    ensures NonIdle(slots) >= |slots| - 1
       <==> forall i, j :: 0 <= i < j < |slots| ==> !(slots[i].phase.Idle? && slots[j].phase.Idle?)
    decreases |slots|
  {
    if slots != [] {
      var n := |slots| - 1;
      var before := slots[..n];
      InUseButOne(before);
      InUseAll(before);
      assert slots == before + [slots[n]];
      if slots[n].phase.Idle? && NonIdle(before) < n {
        var i :| 0 <= i < n && before[i].phase.Idle?;
        assert slots[i].phase.Idle?;
      }
    }
  }

  predicate TwoIdle(slots: seq<Slot>) {
    exists i, j :: 0 <= i < j < |slots| && slots[i].phase.Idle? && slots[j].phase.Idle?
  }

  /** A readback is taken on exactly if there is a slot for it: an idle one, or with `latest-only` one that is only
      scheduled; and with adaptive pacing only while two slots are idle. It takes the first idle slot; with none it
      replaces the readback scheduled last, never one in flight. */
  lemma SlotChoice(c: Config, s: Source)
    requires s.Shaped(c)
    ensures var i := ReadbackSlots.Taken(c, s);
      && (i >= 0 <==> (c.adaptive ==> TwoIdle(s.slots))
                      && exists j :: 0 <= j < c.count
                           && (s.slots[j].phase.Idle? || (c.latestOnly && s.slots[j].phase.Scheduled?)))
      && (i >= 0 && s.slots[i].phase.Idle? ==> forall j :: 0 <= j < i ==> !s.slots[j].phase.Idle?)
      && (i >= 0 && !s.slots[i].phase.Idle? ==>
            && c.latestOnly && s.slots[i].phase.Scheduled?
            && forall j :: 0 <= j < c.count ==>
                 && !s.slots[j].phase.Idle?
                 && (s.slots[j].phase.Scheduled? ==> s.slots[j].phase.serial <= s.slots[i].phase.serial))
  {
    InUseButOne(s.slots);
    assert TwoIdle(s.slots) <==> NonIdle(s.slots) < c.count - 1;
  }

  // One readback from its schedule to its drain

  function Lived(c: Config, s: Source, offset: nat, length: nat, settled: Event, o: Outcome): (s': Source)
    requires s.Shaped(c)
    ensures s'.Shaped(c)
  {
    var s1 := Step(c, s, Schedule(offset, length));
    var s2 := Step(c, s1, Flush);
    var s3 := Step(c, s2, settled);
    Step(c, s3, Drain(if settled.Resolve? || settled.Reject? then settled.i else 0, o))
  }

  /** A readback that nothing else comes between: it updates its own byte range and is pushed, unless its map failed,
      its range could not be read, or the bridge did not take it. */
  lemma OneReadback(c: Config, s: Source, offset: nat, length: nat, i: nat, settled: Event, o: Outcome)
    requires s.Shaped(c) && RangeAccepted(c, offset, length) && i == ReadbackSlots.Taken(c, s)
    requires settled == Resolve(i) || settled == Reject(i, true) || settled == Reject(i, false)
    ensures var s' := Lived(c, s, offset, length, settled, o);
      var slot := Slot(InFlight(true, settled == Reject(i, true)), offset, length);
      && s'.pushed == (if Takes(c, slot, o) then ToInt32(s.pushed + 1) else s.pushed)
      && s'.dropped == (if Takes(c, slot, o) then s.dropped else ToInt32(s.dropped + 1))
      && (!Updates(c, s.retained, slot, o) ==> s'.retained == s.retained)
      && (Updates(c, s.retained, slot, o) ==>
            s'.retained.Some? && Frames(s.retained, slot, o.bytes.value, s'.retained.value))
  {
    var s1 := Step(c, s, Schedule(offset, length));
    var s2 := Step(c, s1, Flush);
    var s3 := Step(c, s2, settled);
    assert s1.slots[i] == Slot(Scheduled(s.serial + 1), offset, length);
    assert s2.slots[i] == Slot(InFlight(false, false), offset, length);
    assert s3.slots[i] == Slot(InFlight(true, settled == Reject(i, true)), offset, length);
    DrainExact(c, s3, i, o);
  }
}
