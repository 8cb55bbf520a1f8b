/** The staging-slot lifecycle of BridgeGPUSource as a state machine. The GPU, the promises, the bridge and
    the user's decoder enter as outcomes that an event carries. */
module ReadbackSlots {
  import opened Int32

  type Byte = x: int | 0 <= x < 256

  datatype Option<T> = None | Some(value: T)

  /** At least two staging buffers of `size` bytes each. */
  datatype Config = Config(count: nat, size: nat, latestOnly: bool, adaptive: bool, raw: bool) {
    predicate Valid() {
      count >= 2 && size > 0
    }
  }

  /** `error` is whether the slot's error is defined: a promise rejected with undefined leaves it unset. */
  datatype Phase = Idle | Scheduled(serial: nat) | InFlight(mapped: bool, error: bool)

  datatype Slot = Slot(phase: Phase, offset: nat, length: nat)

  datatype Source = Source(slots: seq<Slot>, retained: Option<seq<Byte>>, pushed: int, dropped: int, coalesced: int,
                           declined: int, partials: int, partialBytes: nat, serial: nat)
  {
    predicate Shaped(c: Config) {
      && c.Valid() && |slots| == c.count
      && (forall i :: 0 <= i < c.count ==> slots[i].offset + slots[i].length <= c.size)
      && (retained.Some? ==> |retained.value| == c.size)
    }
  }

  /** How the bridge, the decoder and the mapped range behave for one drain. `bytes` is what `readMapped`
      returns, unless it throws; `granted` is whether `beginPush` finds room. */
  datatype Push = Accepted | Refused | Throws
  datatype Outcome = Outcome(bytes: Option<seq<Byte>>, granted: bool, decoderThrows: bool, push: Push)

  datatype Event =
    | Schedule(offset: nat, length: nat)
    | Flush
    | Resolve(i: nat)
    | Reject(i: nat, defined: bool)
    | Drain(i: nat, outcome: Outcome)

  // Slot acquisition

  function FirstIdle(slots: seq<Slot>, from: nat): (i: int)
    requires from <= |slots|
    ensures i == -1 <==> forall j :: from <= j < |slots| ==> !slots[j].phase.Idle?
    ensures i != -1 ==>
      from <= i < |slots| && slots[i].phase.Idle? && forall j :: from <= j < i ==> !slots[j].phase.Idle?
    decreases |slots| - from
  {
    if from == |slots| then -1 else if slots[from].phase.Idle? then from else FirstIdle(slots, from + 1)
  }

  function SerialAt(slots: seq<Slot>, i: int): int
    requires i < |slots|
  {
    if 0 <= i && slots[i].phase.Scheduled? then slots[i].phase.serial else -1
  }

  /** The most recently scheduled of the first n slots. */
  function Newest(slots: seq<Slot>, n: nat): (i: int)
    requires n <= |slots|
    ensures -1 <= i < n && (i >= 0 ==> slots[i].phase.Scheduled?)
    ensures forall j :: 0 <= j < n && slots[j].phase.Scheduled? ==>
      i >= 0 && slots[j].phase.serial <= SerialAt(slots, i)
  {
    if n == 0 then -1 else
      var best := Newest(slots, n - 1);
      if slots[n - 1].phase.Scheduled? && slots[n - 1].phase.serial > SerialAt(slots, best) then n - 1 else best
  }

  function NonIdle(slots: seq<Slot>): (n: nat)
    ensures n <= |slots|
  {
    if slots == [] then 0 else NonIdle(slots[..|slots| - 1]) + (if slots[|slots| - 1].phase.Idle? then 0 else 1)
  }

  /** The slot a readback would take, or -1. */
  function Taken(c: Config, s: Source): (i: int)
    requires s.Shaped(c)
    ensures -1 <= i < c.count && (i >= 0 ==> !s.slots[i].phase.InFlight?)
  {
    if c.adaptive && NonIdle(s.slots) >= c.count - 1 then -1 else
      var idle := FirstIdle(s.slots, 0);
      if idle >= 0 || !c.latestOnly then idle else Newest(s.slots, c.count)
  }

  function Scheduling(c: Config, s: Source, offset: nat, length: nat): (s': Source)
    requires s.Shaped(c) && offset + length <= c.size
    ensures s'.Shaped(c)
  {
    var i := Taken(c, s);
    if i < 0 then
      if c.adaptive && NonIdle(s.slots) >= c.count - 1 then s.(declined := ToInt32(s.declined + 1)) else s
    else
      s.(slots := s.slots[i := Slot(Scheduled(s.serial + 1), offset, length)], serial := s.serial + 1,
         coalesced := if s.slots[i].phase.Idle? then s.coalesced else ToInt32(s.coalesced + 1))
  }

  function Flushed(slots: seq<Slot>): (slots': seq<Slot>)
    ensures |slots'| == |slots|
    ensures forall i :: 0 <= i < |slots| ==> slots'[i] == if slots[i].phase.Scheduled?
              then slots[i].(phase := InFlight(false, false)) else slots[i]
  {
    seq(|slots|, i requires 0 <= i < |slots| =>
      if slots[i].phase.Scheduled? then slots[i].(phase := InFlight(false, false)) else slots[i])
  }

  // One drain

  predicate IsFull(c: Config, slot: Slot) {
    slot.offset == 0 && slot.length == c.size
  }

  /** `image` with the slot's byte range taken from `bytes`. */
  function Merged(image: seq<Byte>, bytes: seq<Byte>, slot: Slot): (image': seq<Byte>)
    requires |image| == |bytes| && slot.offset + slot.length <= |image|
    ensures |image'| == |image|
    ensures forall k :: 0 <= k < |image| ==>
              image'[k] == if slot.offset <= k < slot.offset + slot.length then bytes[k] else image[k]
  {
    image[..slot.offset] + bytes[slot.offset..slot.offset + slot.length] + image[slot.offset + slot.length..]
  }

  function Zeros(n: nat): (z: seq<Byte>)
    ensures |z| == n && forall k :: 0 <= k < n ==> z[k] == 0
  {
    seq(n, _ => 0)
  }

  /** Whether this drain reads the mapped range at all: not for a slot whose map failed, and not when the bridge
      is full in closure mode unless a retained image has to be kept up to date. */
  predicate Reads(c: Config, s: Source, slot: Slot, o: Outcome) {
    && slot.phase.InFlight? && !slot.phase.error
    && (c.raw || o.granted || s.retained.Some? || !IsFull(c, slot))
  }

  /** Whether it merges what it read into the retained image. */
  predicate Merges(c: Config, s: Source, slot: Slot, o: Outcome) {
    Reads(c, s, slot, o) && o.bytes.Some? && |o.bytes.value| == c.size && !(IsFull(c, slot) && s.retained.None?)
  }

  /** Whether it publishes a frame. */
  predicate Publishes(c: Config, slot: Slot, o: Outcome) {
    && slot.phase.InFlight? && !slot.phase.error && o.bytes.Some? && |o.bytes.value| == c.size
    && (if c.raw then o.push.Accepted? else o.granted && !o.decoderThrows && !o.push.Throws?)
  }

  /** The retained image takes the slot's range; a partial one is counted. */
  function AfterMerge(c: Config, s: Source, slot: Slot, bytes: seq<Byte>): (s': Source)
    requires s.Shaped(c) && slot.offset + slot.length <= c.size && |bytes| == c.size
    ensures s'.Shaped(c) && s'.slots == s.slots
  {
    var image := if s.retained.Some? then s.retained.value else Zeros(c.size);
    var s1 := s.(retained := Some(Merged(image, bytes, slot)));
    if IsFull(c, slot) then s1
    else s1.(partials := ToInt32(s.partials + 1), partialBytes := s.partialBytes + slot.length)
  }

  function AfterRead(c: Config, s: Source, slot: Slot, o: Outcome): (s': Source)
    requires s.Shaped(c) && slot.offset + slot.length <= c.size
    ensures s'.Shaped(c) && s'.slots == s.slots
  {
    if Merges(c, s, slot, o) then AfterMerge(c, s, slot, o.bytes.value) else s
  }

  predicate Ready(c: Config, s: Source, i: nat) {
    i < |s.slots| && s.slots[i].phase.InFlight? && s.slots[i].phase.mapped
  }

  function Draining(c: Config, s: Source, i: nat, o: Outcome): (s': Source)
    requires s.Shaped(c)
    ensures s'.Shaped(c)
  {
    if !Ready(c, s, i) then s else
      var slot := s.slots[i];
      var s1 := AfterRead(c, s, slot, o);
      var s2 := if Publishes(c, slot, o) then s1.(pushed := ToInt32(s.pushed + 1))
                else s1.(dropped := ToInt32(s.dropped + 1));
      s2.(slots := s.slots[i := Slot(Idle, 0, c.size)])
  }

  function Initial(c: Config, image: Option<seq<Byte>>): (s: Source)
    requires c.Valid() && (image.Some? ==> |image.value| == c.size)
    ensures s.Shaped(c)
  {
    Source(seq(c.count, _ => Slot(Idle, 0, c.size)), image, 0, 0, 0, 0, 0, 0, 0)
  }

  /** What `validateCopyRange` lets through on the staging buffer's side. */
  predicate RangeAccepted(c: Config, offset: int, length: int) {
    offset >= 0 && length > 0 && offset % 4 == 0 && length % 4 == 0 && offset + length <= c.size
  }

  predicate Pending(s: Source, i: nat) {
    i < |s.slots| && s.slots[i].phase.InFlight? && !s.slots[i].phase.mapped
  }

  /** One event. A promise settles at most once, and only for a slot whose map was begun. */
  function Step(c: Config, s: Source, e: Event): (s': Source)
    requires s.Shaped(c)
    ensures s'.Shaped(c)
  {
    match e
    case Schedule(offset, length) => if RangeAccepted(c, offset, length) then Scheduling(c, s, offset, length) else s
    case Flush => s.(slots := Flushed(s.slots))
    case Resolve(i) =>
      if Pending(s, i) then s.(slots := s.slots[i := s.slots[i].(phase := InFlight(true, false))]) else s
    case Reject(i, defined) =>
      if Pending(s, i) then s.(slots := s.slots[i := s.slots[i].(phase := InFlight(true, defined))]) else s
    case Drain(i, o) => Draining(c, s, i, o)
  }
}
