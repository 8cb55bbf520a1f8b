/** BridgeGPUSource: the methods that drive the staging slots, each tied to a step of the slot machine. */
module GpuSource {
  import opened Int32
  import opened ReadbackSlots

  /** The drains of one `pollCompleted`, slot by slot, and how many of them published. */
  function Polled(c: Config, s: Source, outcomes: seq<Outcome>, n: nat): (r: (Source, nat))
    requires s.Shaped(c) && n <= |outcomes| == c.count
    ensures r.0.Shaped(c)
  {
    if n == 0 then (s, 0) else
      var before := Polled(c, s, outcomes, n - 1);
      (Draining(c, before.0, n - 1, outcomes[n - 1]),
       before.1 + if Ready(c, before.0, n - 1) && Publishes(c, before.0.slots[n - 1], outcomes[n - 1]) then 1 else 0)
  }

  function ReadyOnes(c: Config, s: Source, n: nat): nat {
    if n == 0 then 0 else ReadyOnes(c, s, n - 1) + if Ready(c, s, n - 1) then 1 else 0
  }

  /** A poll drains every slot that was ready and leaves the others alone. */
  lemma {:induction false} PolledEach(c: Config, s: Source, outcomes: seq<Outcome>, n: nat)
    requires s.Shaped(c) && n <= |outcomes| == c.count
    ensures var s' := Polled(c, s, outcomes, n).0;
      && (forall j :: 0 <= j < n && Ready(c, s, j) ==> s'.slots[j].phase.Idle?)
      && (forall j :: 0 <= j < c.count && !(j < n && Ready(c, s, j)) ==> s'.slots[j] == s.slots[j])
    decreases n
  {
    if n > 0 {
      PolledEach(c, s, outcomes, n - 1);
      OneDrain(c, Polled(c, s, outcomes, n - 1).0, n - 1, outcomes[n - 1]);
    }
  }

  /** The counters have taken in `ready` drains of which `count` were pushed. */
  predicate Tallied(s: Source, s': Source, ready: nat, count: nat) {
    && count <= ready && ToInt32(s'.pushed) == ToInt32(s.pushed + count)
    && ToInt32(s'.dropped) == ToInt32(s.dropped + (ready - count))
  }

  /** The last drain of a poll, in numbers. */
  lemma LastPolled(c: Config, s: Source, outcomes: seq<Outcome>, n: nat, mid: (Source, nat), end: (Source, nat))
    returns (taken: bool)
    requires s.Shaped(c) && 0 < n <= |outcomes| == c.count
    requires mid == Polled(c, s, outcomes, n - 1) && end == Polled(c, s, outcomes, n)
    ensures (taken ==> Ready(c, s, n - 1)) && end.1 == mid.1 + if taken then 1 else 0
    ensures end.0.pushed == if taken then ToInt32(mid.0.pushed + 1) else mid.0.pushed
    ensures end.0.dropped == if Ready(c, s, n - 1) && !taken then ToInt32(mid.0.dropped + 1) else mid.0.dropped
  {
    PolledEach(c, s, outcomes, n - 1);
    OneDrain(c, mid.0, n - 1, outcomes[n - 1]);
    taken := Ready(c, mid.0, n - 1) && Publishes(c, mid.0.slots[n - 1], outcomes[n - 1]);
  }

  /** Each readback that it drains counts as pushed or as dropped, and the answer is the number pushed. */
  lemma {:induction false} PolledCounts(c: Config, s: Source, outcomes: seq<Outcome>, n: nat, end: (Source, nat))
    requires s.Shaped(c) && n <= |outcomes| == c.count && end == Polled(c, s, outcomes, n)
    ensures Tallied(s, end.0, ReadyOnes(c, s, n), end.1)
    decreases n
  {
    if n > 0 {
      PolledCounts(c, s, outcomes, n - 1, Polled(c, s, outcomes, n - 1));
      CountsOn(c, s, outcomes, n, Polled(c, s, outcomes, n - 1), end, ReadyOnes(c, s, n - 1), ReadyOnes(c, s, n));
    }
  }

  lemma CountsOn(c: Config, s: Source, outcomes: seq<Outcome>, n: nat, mid: (Source, nat), end: (Source, nat),
                 ready: nat, ready': nat)
    requires s.Shaped(c) && 0 < n <= |outcomes| == c.count
    requires mid == Polled(c, s, outcomes, n - 1) && end == Polled(c, s, outcomes, n)
    requires Tallied(s, mid.0, ready, mid.1) && ready' == ready + if Ready(c, s, n - 1) then 1 else 0
    ensures Tallied(s, end.0, ready', end.1)
  {
    var taken := LastPolled(c, s, outcomes, n, mid, end);
    TalliedOn(s, mid.0, end.0, ready, mid.1, Ready(c, s, n - 1), taken, ready', end.1);
  }

  lemma TalliedOn(s: Source, mid: Source, s': Source, ready: nat, count: nat, now: bool, taken: bool, ready': nat,
                  count': nat)
    requires Tallied(s, mid, ready, count) && (taken ==> now)
    requires s'.pushed == (if taken then ToInt32(mid.pushed + 1) else mid.pushed)
    requires s'.dropped == (if now && !taken then ToInt32(mid.dropped + 1) else mid.dropped)
    requires ready' == ready + (if now then 1 else 0) && count' == count + (if taken then 1 else 0)
    ensures Tallied(s, s', ready', count')
  {
    NextCount(mid.pushed, s.pushed + count);
    NextCount(mid.dropped, s.dropped + (ready - count));
  }

  lemma OneDrain(c: Config, s: Source, i: nat, o: Outcome)
    requires s.Shaped(c)
    ensures var s' := Draining(c, s, i, o);
      && (!Ready(c, s, i) ==> s' == s)
      && (Ready(c, s, i) ==>
            && s'.slots == s.slots[i := Slot(Idle, 0, c.size)]
            && s'.pushed == (if Publishes(c, s.slots[i], o) then ToInt32(s.pushed + 1) else s.pushed)
            && s'.dropped == (if Publishes(c, s.slots[i], o) then s.dropped else ToInt32(s.dropped + 1)))
  {
  }

  lemma NextCount(x: int, y: int)
    requires ToInt32(x) == ToInt32(y)
    ensures ToInt32(ToInt32(x + 1)) == ToInt32(y + 1)
  {
    ToInt32Add(x, 1);
    ToInt32Add(y, 1);
  }

  class BridgeGPUSource {
    const c: Config
    const autoDrain: bool
    var slots: seq<Slot>
    var partialFrameBytes: Option<seq<Byte>>
    var pushedCount: int
    var droppedCount: int
    var coalescedCount: int
    var pacingDeclinedCount: int
    var partialReadbackCount: int
    var partialBytesCopied: nat
    var scheduleSerial: nat
    var destroyed: bool

    function State(): Source
      reads this
    {
      Source(slots, partialFrameBytes, pushedCount, droppedCount, coalescedCount, pacingDeclinedCount,
             partialReadbackCount, partialBytesCopied, scheduleSerial)
    }

    predicate Valid()
      reads this
    {
      State().Shaped(c)
    }

    constructor (c: Config, autoDrain: bool, image: Option<seq<Byte>>)
      requires c.Valid() && (image.Some? ==> |image.value| == c.size)
      ensures Valid() && State() == Initial(c, image) && this.c == c && this.autoDrain == autoDrain && !destroyed
    {
      this.c, this.autoDrain := c, autoDrain;
      slots, partialFrameBytes := seq(c.count, _ => Slot(Idle, 0, c.size)), image;
      pushedCount, droppedCount, coalescedCount, pacingDeclinedCount := 0, 0, 0, 0;
      partialReadbackCount, partialBytesCopied, scheduleSerial, destroyed := 0, 0, 0, false;
    }

    method AcquireIdleSlotIndex() returns (index: int)
      ensures index == FirstIdle(slots, 0)
    {
      var i := 0;
      while i < |slots|
        invariant i <= |slots| && FirstIdle(slots, 0) == FirstIdle(slots, i)
      {
        if slots[i].phase.Idle? {
          return i;
        }
        i := i + 1;
      }
      return -1;
    }

    method AcquireScheduledSlotIndex() returns (newest: int)
      ensures newest == Newest(slots, |slots|)
    {
      newest := -1;
      var newestSerial: int := -1;
      for i := 0 to |slots|
        invariant newest == Newest(slots, i) && newestSerial == SerialAt(slots, newest)
      {
        if slots[i].phase.Scheduled? && slots[i].phase.serial > newestSerial {
          newest, newestSerial := i, slots[i].phase.serial;
        }
      }
    }

    method InFlight() returns (n: nat)
      ensures n == NonIdle(slots)
    {
      n := 0;
      for i := 0 to |slots|
        invariant n == NonIdle(slots[..i])
      {
        assert slots[..i + 1][..i] == slots[..i];
        if !slots[i].phase.Idle? {
          n := n + 1;
        }
      }
      assert slots[..|slots|] == slots;
    }

    /** `scheduleReadback`; a range that `validateCopyRange` refuses makes the source throw. */
    method ScheduleReadback(srcOffset: int, length: int, offset: int) returns (ok: bool, thrown: bool)
      requires Valid()
      modifies this
      ensures Valid() && (thrown <==> srcOffset < 0 || srcOffset % 4 != 0 || length <= 0 || length % 4 != 0
                                      || offset < 0 || offset % 4 != 0 || offset + length > c.size)
      ensures thrown ==> !ok && State() == old(State())
      ensures !thrown ==> State() == Scheduling(c, old(State()), offset, length) && ok == (Taken(c, old(State())) >= 0)
    {
      thrown := srcOffset < 0 || srcOffset % 4 != 0 || !RangeAccepted(c, offset, length);
      if thrown {
        return false, true;
      }
      if c.adaptive {
        var busy := InFlight();
        if busy >= |slots| - 1 {
          pacingDeclinedCount := ToInt32(pacingDeclinedCount + 1);
          return false, false;
        }
      }
      var slotIndex := AcquireIdleSlotIndex();
      if slotIndex < 0 {
        if !c.latestOnly {
          return false, false;
        }
        slotIndex := AcquireScheduledSlotIndex();
        if slotIndex < 0 {
          return false, false;
        }
        coalescedCount := ToInt32(coalescedCount + 1);
      }
      scheduleSerial := scheduleSerial + 1;
      slots := slots[slotIndex := Slot(Scheduled(scheduleSerial), offset, length)];
      return true, false;
    }

    method FlushPending()
      requires Valid()
      modifies this`slots
      ensures Valid() && slots == Flushed(old(slots))
    {
      for i := 0 to |slots|
        invariant |slots| == |old(slots)|
        invariant forall j :: 0 <= j < i ==> slots[j] == Flushed(old(slots))[j]
        invariant forall j :: i <= j < |slots| ==> slots[j] == old(slots)[j]
      {
        if slots[i].phase.Scheduled? {
          slots := slots[i := slots[i].(phase := Phase.InFlight(false, false))];
        }
      }
    }

    /** `_readMappedFrameBytes`; None when `readMapped` throws. */
    method ReadMappedFrameBytes(slot: Slot, bytes: Option<seq<Byte>>) returns (range: Option<seq<Byte>>)
      requires Valid() && slot.offset + slot.length <= c.size && (bytes.Some? ==> |bytes.value| == c.size)
      modifies this`partialFrameBytes, this`partialReadbackCount, this`partialBytesCopied
      ensures Valid() && (range.Some? <==> bytes.Some?)
      ensures bytes.None? ==> State() == old(State())
      ensures bytes.Some? && IsFull(c, slot) && old(partialFrameBytes).None? ==>
                State() == old(State()) && range == bytes
      ensures bytes.Some? && !(IsFull(c, slot) && old(partialFrameBytes).None?) ==>
                range == partialFrameBytes && State() == AfterMerge(c, old(State()), slot, bytes.value)
    {
      if bytes.None? {
        return None;
      }
      var isFullFrame := slot.offset == 0 && slot.length == c.size;
      if isFullFrame && partialFrameBytes.None? {
        return bytes;
      }
      if partialFrameBytes.None? {
        partialFrameBytes := Some(Zeros(c.size));
      }
      partialFrameBytes := Some(Merged(partialFrameBytes.value, bytes.value, slot));
      if !isFullFrame {
        partialReadbackCount := ToInt32(partialReadbackCount + 1);
        partialBytesCopied := partialBytesCopied + slot.length;
      }
      return partialFrameBytes;
    }

    /** The decode-and-publish part of `_drainSlot`, for a slot whose map succeeded. */
    method Publish(slot: Slot, o: Outcome) returns (pushed: nat, ghost frame: Option<seq<Byte>>)
      requires Valid() && slot.phase == Phase.InFlight(true, false) && slot.offset + slot.length <= c.size
      requires o.bytes.Some? ==> |o.bytes.value| == c.size
      modifies this`partialFrameBytes, this`partialReadbackCount, this`partialBytesCopied, this`pushedCount,
        this`droppedCount
      ensures Valid() && pushed == (if Publishes(c, slot, o) then 1 else 0)
      ensures pushed == 1 ==> frame == if partialFrameBytes.Some? then partialFrameBytes else o.bytes
      ensures State() == AfterRead(c, old(State()), slot, o).(
                pushed := if Publishes(c, slot, o) then ToInt32(old(pushedCount) + 1) else old(pushedCount),
                dropped := if Publishes(c, slot, o) then old(droppedCount) else ToInt32(old(droppedCount) + 1))
    {
      pushed, frame := 0, None;
      if c.raw {
        var range := ReadMappedFrameBytes(slot, o.bytes);
        assert State() == AfterRead(c, old(State()), slot, o);
        if range.Some? && o.push.Accepted? {
          pushedCount := ToInt32(pushedCount + 1);
          pushed, frame := 1, range;
        } else {
          droppedCount := ToInt32(droppedCount + 1);
        }
      } else if o.granted {
        var range := ReadMappedFrameBytes(slot, o.bytes);
        assert State() == AfterRead(c, old(State()), slot, o);
        if range.Some? && !o.decoderThrows && !o.push.Throws? {
          pushedCount := ToInt32(pushedCount + 1);
          pushed, frame := 1, range;
        } else {
          droppedCount := ToInt32(droppedCount + 1);
        }
      } else {
        if partialFrameBytes.Some? || slot.offset != 0 || slot.length != c.size {
          var _ := ReadMappedFrameBytes(slot, o.bytes);
        }
        assert State() == AfterRead(c, old(State()), slot, o);
        droppedCount := ToInt32(droppedCount + 1);
      }
    }

    /** `_drainSlot`. The slot is recycled on every path, whether or not `releaseMap` throws. */
    method DrainSlot(i: nat, o: Outcome) returns (pushed: nat, ghost frame: Option<seq<Byte>>)
      requires Valid() && i < c.count && (o.bytes.Some? ==> |o.bytes.value| == c.size)
      modifies this
      ensures Valid() && State() == Draining(c, old(State()), i, o) && destroyed == old(destroyed)
      ensures pushed == if Ready(c, old(State()), i) && Publishes(c, old(slots)[i], o) then 1 else 0
      ensures pushed == 1 ==> frame == if partialFrameBytes.Some? then partialFrameBytes else o.bytes
    {
      var slot := slots[i];
      if !slot.phase.InFlight? || !slot.phase.mapped {
        return 0, None;
      }
      if slot.phase.error {
        droppedCount := ToInt32(droppedCount + 1);
        slots := slots[i := Slot(Idle, 0, c.size)];
        return 0, None;
      }
      pushed, frame := Publish(slot, o);
      slots := slots[i := Slot(Idle, 0, c.size)];
    }

    method PollCompleted(outcomes: seq<Outcome>) returns (count: nat)
      requires Valid() && |outcomes| == c.count
      requires forall i :: 0 <= i < |outcomes| && outcomes[i].bytes.Some? ==> |outcomes[i].bytes.value| == c.size
      modifies this
      ensures Valid() && (State(), count) == Polled(c, old(State()), outcomes, c.count)
    {
      count := 0;
      for i := 0 to |slots|
        invariant Valid() && (State(), count) == Polled(c, old(State()), outcomes, i)
      {
        var pushed, _ := DrainSlot(i, outcomes[i]);
        count := count + pushed;
      }
    }

    /** The handlers that `flushPending` attaches: settle the slot, then drain it at once in microtask mode unless
        the source was destroyed meanwhile. */
    method Settle(i: nat, e: Event, o: Outcome)
      requires Valid() && i < c.count && Pending(State(), i) && (o.bytes.Some? ==> |o.bytes.value| == c.size)
      requires e == Resolve(i) || (e.Reject? && e.i == i)
      modifies this
      ensures Valid()
      ensures State() == if autoDrain && !destroyed then Step(c, Step(c, old(State()), e), Drain(i, o))
                         else Step(c, old(State()), e)
    {
      slots := slots[i := slots[i].(phase := Phase.InFlight(true, e.Reject? && e.defined))];
      if autoDrain && !destroyed {
        var _, _ := DrainSlot(i, o);
      }
    }

    method Destroy()
      requires Valid()
      modifies this`destroyed
      ensures destroyed && State() == old(State())
    {
      destroyed := true;
    }
  }

  function Sum(xs: seq<real>): real {
    if xs == [] then 0.0 else Sum(xs[..|xs| - 1]) + xs[|xs| - 1]
  }

  lemma {:induction false} SumUpdate(xs: seq<real>, i: nat, x: real)
    requires i < |xs|
    ensures Sum(xs[i := x]) == Sum(xs) + (x - xs[i])
    decreases |xs|
  {
    var n := |xs| - 1;
    if i < n {
      SumUpdate(xs[..n], i, x);
      assert xs[i := x][..n] == xs[..n][i := x];
    } else {
      assert xs[i := x][..n] == xs[..n];
    }
  }

  /** What a full window of `size` keeps: the newest samples, the oldest falling out. */
  function Slid(size: nat, window: seq<real>, x: real): seq<real>
    requires size > 0
  {
    (if |window| < size then window else window[1..]) + [x]
  }

  function SlidAll(size: nat, xs: seq<real>): seq<real>
    requires size > 0
  {
    if xs == [] then [] else Slid(size, SlidAll(size, xs[..|xs| - 1]), xs[|xs| - 1])
  }

  lemma TailMore(xs: seq<real>, n: nat, from: nat)
    requires from <= n == |xs| - 1
    ensures xs[..n][from..] == xs[from..n] && xs[from..n] + [xs[n]] == xs[from..]
    ensures from < n ==> xs[from..n][1..] == xs[from + 1..n]
  {
  }

  /** Of any number of samples, those are the last `size`. */
  lemma {:induction false} NewestSlid(size: nat, xs: seq<real>)
    requires size > 0
    ensures SlidAll(size, xs) == xs[if |xs| < size then 0 else |xs| - size..]
    decreases |xs|
  {
    if xs != [] {
      var n := |xs| - 1;
      NewestSlid(size, xs[..n]);
      TailMore(xs, n, if n < size then 0 else n - size);
      TailMore(xs, n, if |xs| < size then 0 else |xs| - size);
    }
  }

  /** Where the k-th oldest of `count` samples lies. */
  function Place(size: nat, cursor: nat, count: nat, k: nat): (i: nat)
    requires cursor < size && k < count <= size
    ensures i < size
  {
    if count < size then k else if cursor + k < size then cursor + k else cursor + k - size
  }

  function WindowOf(xs: seq<real>, cursor: nat, count: nat): (window: seq<real>)
    requires cursor < |xs| && count <= |xs|
    ensures |window| == count && forall k :: 0 <= k < count ==> window[k] == xs[Place(|xs|, cursor, count, k)]
  {
    seq(count, k requires 0 <= k < count => xs[Place(|xs|, cursor, count, k)])
  }

  function Next(size: nat, cursor: nat): (i: nat)
    requires cursor < size
    ensures i < size
  {
    if cursor + 1 == size then 0 else cursor + 1
  }

  lemma WindowSlides(xs: seq<real>, cursor: nat, count: nat, x: real)
    requires cursor < |xs| && count <= |xs| && (count < |xs| ==> cursor == count)
    ensures WindowOf(xs[cursor := x], Next(|xs|, cursor), if count < |xs| then count + 1 else count)
         == Slid(|xs|, WindowOf(xs, cursor, count), x)
  {
  }

  lemma SumSlides(xs: seq<real>, cursor: nat, count: nat, x: real)
    requires cursor < |xs| && count <= |xs| && (count < |xs| ==> cursor == count)
    ensures count < |xs| ==> Sum(xs[cursor := x][..count + 1]) == Sum(xs[..count]) + x
    ensures count == |xs| ==> Sum(xs[cursor := x][..count]) == Sum(xs[..count]) + (x - xs[cursor])
  {
    if count < |xs| {
      assert xs[cursor := x][..count + 1][..count] == xs[..count];
    } else {
      assert xs[..count] == xs && xs[cursor := x][..count] == xs[cursor := x];
      SumUpdate(xs, cursor, x);
    }
  }

  /** The rolling latency window. */
  class LatencyWindow {
    const samples: array<real>
    var cursor: nat
    var count: nat
    var sumUs: real
    var lastUs: real

    /** The running sum is the sum of the samples kept. */
    ghost predicate Valid()
      reads this, samples
    {
      && cursor < samples.Length && count <= samples.Length && (count < samples.Length ==> cursor == count)
      && sumUs == Sum(samples[..count])
    }

    /** The samples kept, oldest first. */
    ghost function Window(): seq<real>
      requires Valid()
      reads this, samples
    {
      WindowOf(samples[..], cursor, count)
    }

    constructor (size: nat)
      requires size > 0
      ensures Valid() && Window() == [] && fresh(samples)
    {
      samples := new real[size](_ => 0.0);
      cursor, count, sumUs, lastUs := 0, 0, 0.0, 0.0;
    }

    /** `_recordReadbackUs`, after a value that is not a finite non-negative number has been replaced by 0. */
    method Record(us: real)
      requires Valid()
      modifies this, samples
      ensures Valid() && Window() == Slid(samples.Length, old(Window()), if us >= 0.0 then us else 0.0)
      ensures lastUs == if us >= 0.0 then us else 0.0
    {
      var finiteUs := if us >= 0.0 then us else 0.0;
      lastUs := finiteUs;
      ghost var xs := samples[..];
      WindowSlides(xs, cursor, count, finiteUs);
      SumSlides(xs, cursor, count, finiteUs);
      if count < samples.Length {
        samples[cursor] := finiteUs;
        sumUs := sumUs + finiteUs;
        count := count + 1;
      } else {
        var before := samples[cursor];
        samples[cursor] := finiteUs;
        sumUs := sumUs + (finiteUs - before);
      }
      assert samples[..] == xs[cursor := finiteUs];
      assert samples[..count] == samples[..][..count] && xs[..old(count)] == old(samples[..count]);
      cursor := if cursor + 1 == samples.Length then 0 else cursor + 1;
    }
  }
}
