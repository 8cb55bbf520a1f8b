/** BridgeBlockConsumer: the audio-side re-blocker over a bridge's pulls. */
module BlockConsumer {
  import opened Reblocking

  /** One sample of every channel: the source's interleaved `samples[j * channels + c]` is column j, entry c. */
  type Column = seq<real>

  predicate Wide(cs: seq<Column>, channels: nat) {
    forall j :: 0 <= j < |cs| ==> |cs[j]| == channels
  }

  predicate Fits(tape: seq<Pull<Column>>, size: nat, channels: nat) {
    forall i :: 0 <= i < |tape| && tape[i].Frame? ==> |tape[i].block| == size && Wide(tape[i].block, channels)
  }

  /** The bridge as its consumer sees it: a tape of what its future pulls find. */
  class Bridge {
    var tape: seq<Pull<Column>>

    constructor (tape: seq<Pull<Column>>)
      ensures this.tape == tape
    {
      this.tape := tape;
    }

    /** One pull; a frame that is found replaces the caller's samples. */
    method Next(samples: seq<Column>) returns (ok: bool, samples': seq<Column>)
      modifies this
      ensures ok <==> old(tape) != [] && old(tape)[0].Frame?
      ensures tape == (if old(tape) == [] then [] else old(tape)[1..])
      ensures ok ==> samples' == old(tape)[0].block
      ensures !ok ==> samples' == samples
    {
      if tape == [] {
        return false, samples;
      }
      var p := tape[0];
      tape := tape[1..];
      match p
      case Empty => return false, samples;
      case Frame(block) => return true, block;
    }
  }

  datatype Policy = ZeroFill | HoldLast

  const MARKS := 256

  datatype Mark = Mark(emitted: int, underflow: int)

  /** Samples between marks, so that all of them together span the window; 0 when there is no sample rate. */
  function Stride(windowMs: real, sampleRate: real): (n: nat)
    requires windowMs > 0.0
    ensures sampleRate <= 0.0 ==> n == 0
    ensures var window := windowMs * sampleRate / 1000.0;
      sampleRate > 0.0 ==> n >= 1 && window < (255 * (n + 1)) as real && (n > 1 ==> (255 * n) as real <= window)
  {
    if sampleRate <= 0.0 then 0 else
      var n := (windowMs * sampleRate / 1000.0 / (MARKS - 1) as real).Floor;
      if n < 1 then 1 else n
  }

  /** x modulo MARKS, for x below twice that. */
  function Wrap(x: nat): (y: nat)
    requires x < 2 * MARKS
    ensures y < MARKS && y == x % MARKS
  {
    if x < MARKS then x else x - MARKS
  }

  /** Where the k-th oldest of `count` marks lies when the next one goes to `head`. */
  function Slot(head: nat, count: nat, k: nat): (slot: nat)
    requires head < MARKS && count <= MARKS && k <= MARKS
    ensures slot < MARKS
  {
    Wrap(Wrap(head + MARKS - count) + k)
  }

  function MarksOf(ss: seq<int>, us: seq<int>, head: nat, count: nat): (ms: seq<Mark>)
    requires |ss| == |us| == MARKS && head < MARKS && count <= MARKS
    ensures |ms| == count
    ensures forall k :: 0 <= k < count ==> ms[k] == Mark(ss[Slot(head, count, k)], us[Slot(head, count, k)])
  {
    seq(count, k requires 0 <= k < count => Mark(ss[Slot(head, count, k)], us[Slot(head, count, k)]))
  }

  /** Since each mark, at most as many samples underflowed as were emitted. */
  predicate MarksAgree(ms: seq<Mark>, emitted: int, underflow: int) {
    forall k :: 0 <= k < |ms| ==>
      ms[k].underflow <= underflow && underflow - ms[k].underflow <= emitted - ms[k].emitted
  }

  /** A service that a pull which found nothing has ended. */
  function Starved(tape: seq<Pull<Column>>): Served<Column> {
    Served([], [], tape, 0, -1)
  }

  function MaybePulled(pulled: bool, s: Served<Column>): Served<Column> {
    if pulled then Pulled(s) else s
  }

  lemma PortionOf(samples: seq<Column>, cursor: nat, take: nat, tape: seq<Pull<Column>>, need: nat)
    requires cursor + take <= |samples| && take <= need
    ensures Serve(samples[cursor..], tape, need)
         == After(samples[cursor..cursor + take], Serve(samples[cursor + take..], tape, need - take))
  {
    Portion(samples[cursor..], tape, take, need);
    assert samples[cursor..][..take] == samples[cursor..cursor + take];
    assert samples[cursor..][take..] == samples[cursor + take..];
  }

  /** The last sample handed out, on channel c. */
  function Held(cs: seq<Column>, c: nat, before: real): real
    requires cs == [] || c < |cs[|cs| - 1]|
  {
    if cs == [] then before else cs[|cs| - 1][c]
  }

  lemma WideMore(done: seq<Column>, front: seq<Column>, channels: nat, c: nat, before: real)
    requires Wide(done, channels) && Wide(front, channels) && front != [] && c < channels
    ensures Wide(done + front, channels) && Held(done + front, c, before) == front[|front| - 1][c]
  {
  }

  function Gained(x: real, gain: real, y: real): real {
    x + gain * y
  }

  /** `now` is `was` with channel c of `cs` added in at `off`. */
  predicate Mixed(now: seq<real>, was: seq<real>, off: nat, cs: seq<Column>, c: nat, gain: real)
    requires forall j :: 0 <= j < |cs| ==> c < |cs[j]|
  {
    |now| == |was| && forall k :: 0 <= k < |now| ==>
      now[k] == if off <= k < off + |cs| then Gained(was[k], gain, cs[k - off][c]) else was[k]
  }

  lemma MixedMore(now: seq<real>, mid: seq<real>, was: seq<real>, done: seq<Column>, front: seq<Column>,
                  channels: nat, c: nat, gain: real)
    requires c < channels && Wide(done, channels) && Wide(front, channels)
    requires Mixed(mid, was, 0, done, c, gain) && Mixed(now, mid, |done|, front, c, gain)
    ensures Wide(done + front, channels) && Mixed(now, was, 0, done + front, c, gain)
  {
  }

  function Contents(out: array?<real>): seq<real>
    reads out
  {
    if out == null then [] else out[..]
  }

  /** Which channel goes to the first output, which to the second if there is one, and how loud. */
  datatype Route = Route(first: nat, second: nat, two: bool, gain: real, channels: nat)

  /** Both outputs have had the same columns added in at `off`. */
  predicate BothMixed(r: Route, now: (seq<real>, seq<real>), was: (seq<real>, seq<real>), off: nat, cs: seq<Column>) {
    && r.first < r.channels && (r.two ==> r.second < r.channels) && Wide(cs, r.channels)
    && Mixed(now.0, was.0, off, cs, r.first, r.gain)
    && (r.two ==> Mixed(now.1, was.1, off, cs, r.second, r.gain))
  }

  lemma BothMore(r: Route, now: (seq<real>, seq<real>), mid: (seq<real>, seq<real>), was: (seq<real>, seq<real>),
                 done: seq<Column>, front: seq<Column>)
    requires BothMixed(r, mid, was, 0, done) && BothMixed(r, now, mid, |done|, front)
    ensures BothMixed(r, now, was, 0, done + front)
  {
    MixedMore(now.0, mid.0, was.0, done, front, r.channels, r.first, r.gain);
    if r.two {
      MixedMore(now.1, mid.1, was.1, done, front, r.channels, r.second, r.gain);
    }
  }

  /** How far a request has got: the samples handed out, and the consumer's frame count, last pull and held
      sample at that point. */
  datatype Tally = Tally(done: seq<Column>, frames: int, last: int, hold: real)

  /** The time of the last pull: `lastPull` samples after `base`, or still `before`. */
  function PullTime(lastPull: int, base: int, before: int): int {
    if lastPull < 0 then before else base + lastPull
  }

  /** A request for `goal` that began at `start` is under way, and `rest` of it is still to come. */
  ghost predicate Underway(goal: Served<Column>, channels: nat, c: nat, base: int, start: Tally, t: Tally,
                           rest: Served<Column>) {
    && c < channels && Wide(t.done, channels) && t.hold == Held(t.done, c, start.hold)
    && goal.got == t.done + rest.got && goal.rest == rest.rest && goal.tape == rest.tape
    && start.frames + goal.frames == t.frames + rest.frames
    && PullTime(goal.lastPull, base, start.last) == PullTime(rest.lastPull, base + |t.done|, t.last)
  }

  function NextTally(base: int, t: Tally, pulled: bool, front: seq<Column>, hold: real): Tally {
    Tally(t.done + front, t.frames + (if pulled then 1 else 0), if pulled then base + |t.done| else t.last, hold)
  }

  lemma UnderwayChunk(goal: Served<Column>, channels: nat, c: nat, base: int, start: Tally, t: Tally,
                      rest: Served<Column>, pulled: bool, front: seq<Column>, hold: real, rest': Served<Column>)
    requires Underway(goal, channels, c, base, start, t, rest) && front != [] && Wide(front, channels)
    requires hold == front[|front| - 1][c] && rest == MaybePulled(pulled, After(front, rest'))
    ensures Underway(goal, channels, c, base, start, NextTally(base, t, pulled, front, hold), rest')
  {
    WideMore(t.done, front, channels, c, start.hold);
    assert t.done + (front + rest'.got) == (t.done + front) + rest'.got;
  }

  /** The consumer at the end of a request, met in full or starved. */
  predicate Finished(goal: Served<Column>, channels: nat, c: nat, base: int, start: Tally, t: Tally,
                     left: seq<Column>, tape: seq<Pull<Column>>) {
    && goal.got == t.done && goal.rest == left && goal.tape == tape && c < channels && Wide(goal.got, channels)
    && t.frames == start.frames + goal.frames && t.last == PullTime(goal.lastPull, base, start.last)
    && t.hold == Held(goal.got, c, start.hold)
  }

  lemma UnderwayEnds(goal: Served<Column>, channels: nat, c: nat, base: int, start: Tally, t: Tally,
                     rest: Served<Column>, left: seq<Column>, tape: seq<Pull<Column>>)
    requires Underway(goal, channels, c, base, start, t, rest)
    requires rest == Serve(left, tape, 0) || (rest == Starved(tape) && left == [])
    ensures Finished(goal, channels, c, base, start, t, left, tape)
  {
  }

  /** `now` is `was` with the mono samples `cs` written at `off`. */
  predicate Patched(now: seq<real>, was: seq<real>, off: nat, cs: seq<Column>)
    requires Wide(cs, 1)
  {
    |now| == |was| && forall k :: 0 <= k < |now| ==> now[k] == if off <= k < off + |cs| then cs[k - off][0] else was[k]
  }

  lemma PatchedMore(now: seq<real>, mid: seq<real>, was: seq<real>, done: seq<Column>, front: seq<Column>)
    requires Wide(done, 1) && Wide(front, 1) && Patched(mid, was, 0, done) && Patched(now, mid, |done|, front)
    ensures Wide(done + front, 1) && Patched(now, was, 0, done + front)
  {
  }

  /** A history that keeps the newest 256 marks. */
  function Kept(ms: seq<Mark>, m: Mark): seq<Mark> {
    (if |ms| < MARKS then ms else ms[1..]) + [m]
  }

  function KeptAll(marks: seq<Mark>): seq<Mark> {
    if marks == [] then [] else Kept(KeptAll(marks[..|marks| - 1]), marks[|marks| - 1])
  }

  lemma TailMore(marks: seq<Mark>, n: nat, from: nat)
    requires from <= n == |marks| - 1
    ensures marks[..n][from..] == marks[from..n] && marks[from..n] + [marks[n]] == marks[from..]
    ensures from < n ==> marks[from..n][1..] == marks[from + 1..n]
  {
  }

  /** Of any number of marks, those are the newest. */
  lemma {:induction false} NewestKept(marks: seq<Mark>)
    ensures KeptAll(marks) == marks[if |marks| < 256 then 0 else |marks| - 256..]
    decreases |marks|
  {
    if marks != [] {
      var n := |marks| - 1;
      NewestKept(marks[..n]);
      TailMore(marks, n, if n < 256 then 0 else n - 256);
      TailMore(marks, n, if |marks| < 256 then 0 else |marks| - 256);
    }
  }

  function Stamped(stride: nat, ms: seq<Mark>, last: int, emitted: nat, underflow: nat): seq<Mark> {
    if stride > 0 && (ms == [] || emitted - last >= stride) then Kept(ms, Mark(emitted, underflow)) else ms
  }

  lemma SlotNext(head: nat, count: nat, k: nat)
    requires head < MARKS && count <= MARKS && k < MARKS
    ensures count < MARKS && k <= count ==>
              Slot(Wrap(head + 1), count + 1, k) == if k < count then Slot(head, count, k) else head
    ensures count == MARKS && k < MARKS ==>
              Slot(Wrap(head + 1), count, k) == if k < MARKS - 1 then Slot(head, count, k + 1) else head
    ensures (if count < MARKS then k < count else 1 <= k < MARKS) ==> Slot(head, count, k) != head
  {
  }

  lemma StampedAgree(stride: nat, ms: seq<Mark>, last: int, emitted: nat, underflow: nat, emitted': nat,
                     underflow': nat)
    requires MarksAgree(ms, emitted, underflow)
    requires underflow <= underflow' && underflow' - underflow <= emitted' - emitted
    ensures MarksAgree(Stamped(stride, ms, last, emitted', underflow'), emitted', underflow')
  {
  }

  lemma StampedMarks(ss: seq<int>, us: seq<int>, head: nat, count: nat, m: Mark)
    requires |ss| == |us| == MARKS && head < MARKS && count <= MARKS
    ensures var count' := if count < MARKS then count + 1 else count;
      MarksOf(ss[head := m.emitted], us[head := m.underflow], Wrap(head + 1), count')
      == Kept(MarksOf(ss, us, head, count), m)
  {
    var count' := if count < MARKS then count + 1 else count;
    var after := MarksOf(ss[head := m.emitted], us[head := m.underflow], Wrap(head + 1), count');
    var kept := Kept(MarksOf(ss, us, head, count), m);
    forall k | 0 <= k < count' ensures after[k] == kept[k] {
      SlotNext(head, count, k);
      if k + 1 < MARKS {
        SlotNext(head, count, k + 1);
      }
    }
  }

  /** Mark k is the last of an unbroken run of marks at or before `target`, the oldest mark counting anyway. */
  predicate Chosen(ms: seq<Mark>, k: nat, target: real) {
    && k < |ms| && (forall j :: 1 <= j <= k ==> ms[j].emitted as real <= target)
    && (k + 1 < |ms| ==> ms[k + 1].emitted as real > target)
  }

  /** The share of the samples emitted since a mark that underflowed. */
  function Share(m: Mark, emitted: int, underflow: int): (share: real)
    ensures emitted > m.emitted ==> share * (emitted - m.emitted) as real == (underflow - m.underflow) as real
    ensures emitted <= m.emitted ==> share == 0.0
  {
    if emitted <= m.emitted then 0.0 else (underflow - m.underflow) as real / (emitted - m.emitted) as real
  }

  lemma FractionBounds(x: int, y: int)
    requires 0 <= x <= y && y > 0
    ensures 0.0 <= x as real / y as real <= 1.0
  {
    var q := x as real / y as real;
    assert q * y as real == x as real;
  }

  class BridgeBlockConsumer {
    const bridge: Bridge
    const blockSize: nat
    const channels: nat
    const policy: Policy
    const sampleRate: real
    const underflowWindowMs: real
    const markStride: nat
    const marksSamples: array<int>
    const marksUnderflow: array<int>
    var samples: seq<Column>
    var cursor: nat
    var hasFrame: bool
    var holdSample: real
    var underflow: nat
    var framesConsumed: nat
    var samplesEmitted: nat
    var lastPullAt: int
    var markHead: nat
    var markCount: nat
    var lastMarkSamples: int
    /** What the bridge had to offer when the counters were last zero, and the requests served since. */
    ghost var origin: seq<Pull<Column>>
    ghost var requests: seq<nat>

    /** `sampleRate` is 0 when none was resolved. */
    constructor (bridge: Bridge, blockSize: nat, channels: nat, policy: Policy, sampleRate: real, windowMs: real)
      requires blockSize > 0 && channels > 0 && Fits(bridge.tape, blockSize, channels)
      requires sampleRate >= 0.0 && windowMs > 0.0
      ensures Valid() && Pending() == [] && this.bridge == bridge
      ensures this.blockSize == blockSize && this.channels == channels && this.policy == policy
      ensures underflow == framesConsumed == samplesEmitted == 0 && Marks() == []
      ensures this.sampleRate == sampleRate && underflowWindowMs == windowMs
      ensures markStride == Stride(windowMs, sampleRate)
      ensures fresh(marksSamples) && fresh(marksUnderflow)
    {
      this.bridge, this.blockSize, this.channels, this.policy := bridge, blockSize, channels, policy;
      this.sampleRate, underflowWindowMs, markStride := sampleRate, windowMs, Stride(windowMs, sampleRate);
      marksSamples, marksUnderflow := new int[MARKS](_ => 0), new int[MARKS](_ => 0);
      samples, cursor, hasFrame, holdSample := [], 0, false, 0.0;
      underflow, framesConsumed, samplesEmitted, lastPullAt := 0, 0, 0, 0;
      markHead, markCount, lastMarkSamples := 0, 0, 0;
      origin, requests := bridge.tape, [];
    }

    /** Fit for the consumption loops. */
    predicate Ready()
      reads this, bridge
    {
      && blockSize > 0 && channels > 0 && Fits(bridge.tape, blockSize, channels)
      && cursor <= blockSize && (hasFrame ==> |samples| == blockSize && Wide(samples, channels))
    }

    ghost predicate Valid()
      reads this, bridge, marksSamples, marksUnderflow
    {
      Ready() && Clocked() && BlocksOf(origin, blockSize) && Tallied(Play(origin, requests))
    }

    /** The history of marks is in order. */
    ghost predicate Clocked()
      reads this, marksSamples, marksUnderflow
    {
      && marksSamples.Length == MARKS && marksUnderflow.Length == MARKS && marksSamples != marksUnderflow
      && markHead < MARKS && markCount <= MARKS && MarksAgree(Marks(), samplesEmitted, underflow)
    }

    /** The session so far ends where the consumer stands. */
    ghost predicate Tallied(s: Session<Column>)
      requires Ready()
      reads this, bridge
    {
      && s.rest == Pending() && s.tape == bridge.tape
      && s.frames == framesConsumed && s.emitted == samplesEmitted && s.short == underflow
    }

    /** What is left of the current block. */
    ghost function Pending(): (rest: seq<Column>)
      requires Ready()
      reads this, bridge
    {
      if hasFrame then samples[cursor..] else []
    }

    /** How a request for `count` samples will be served from here. */
    ghost function Service(count: nat): Served<Column>
      requires Ready()
      reads this, bridge
    {
      Serve(Pending(), bridge.tape, count)
    }

    /** The consumer's side of a request of which `done` has been handed out. */
    ghost function Now(done: seq<Column>): Tally
      reads this
    {
      Tally(done, framesConsumed, lastPullAt, holdSample)
    }

    /** The history of marks, oldest first. */
    ghost function Marks(): (ms: seq<Mark>)
      requires marksSamples.Length == MARKS && marksUnderflow.Length == MARKS && markHead < MARKS && markCount <= MARKS
      reads this, marksSamples, marksUnderflow
      ensures |ms| == markCount
    {
      MarksOf(marksSamples[..], marksUnderflow[..], markHead, markCount)
    }

    /** The pull branch of the consumption loops. */
    method Refill(written: nat, ghost need: nat) returns (ok: bool)
      requires Ready() && need > 0 && Pending() == []
      modifies this`samples, this`cursor, this`hasFrame, this`framesConsumed, this`lastPullAt, bridge
      ensures Ready()
      ensures ok ==> old(Service(need)) == Pulled(Service(need)) && hasFrame && cursor == 0
                     && framesConsumed == old(framesConsumed) + 1 && lastPullAt == samplesEmitted + written
      ensures !ok ==> old(Service(need)) == Starved(bridge.tape) && Pending() == []
                      && framesConsumed == old(framesConsumed) && lastPullAt == old(lastPullAt)
    {
      ok, samples := bridge.Next(samples);
      if ok {
        cursor, hasFrame := 0, true;
        framesConsumed := framesConsumed + 1;
        lastPullAt := samplesEmitted + written;
        assert samples[0..] == samples;
      }
    }

    /** Advance the audio clock, and stamp a mark when the stride has elapsed. */
    method NoteEmitted(count: nat)
      requires marksSamples.Length == MARKS && marksUnderflow.Length == MARKS && marksSamples != marksUnderflow
      requires markHead < MARKS && markCount <= MARKS
      modifies this`samplesEmitted, this`markHead, this`markCount, this`lastMarkSamples, marksSamples, marksUnderflow
      ensures samplesEmitted == old(samplesEmitted) + count && markHead < MARKS && markCount <= MARKS
      ensures Marks() == Stamped(markStride, old(Marks()), old(lastMarkSamples), samplesEmitted, underflow)
      ensures var due := markStride > 0
                         && (old(markCount) == 0 || samplesEmitted - old(lastMarkSamples) >= markStride);
        && Marks() == (if due then Kept(old(Marks()), Mark(samplesEmitted, underflow)) else old(Marks()))
        && lastMarkSamples == (if due then samplesEmitted else old(lastMarkSamples))
    {
      samplesEmitted := samplesEmitted + count;
      if markStride <= 0 {
        return;
      }
      if markCount == 0 || samplesEmitted - lastMarkSamples >= markStride {
        StampMark();
      }
    }

    method StampMark()
      requires marksSamples.Length == MARKS && marksUnderflow.Length == MARKS && marksSamples != marksUnderflow
      requires markHead < MARKS && markCount <= MARKS
      modifies this`markHead, this`markCount, this`lastMarkSamples, marksSamples, marksUnderflow
      ensures markHead < MARKS && markCount <= MARKS && lastMarkSamples == samplesEmitted
      ensures Marks() == Kept(old(Marks()), Mark(samplesEmitted, underflow))
      ensures markCount != old(markCount) || markHead != old(markHead)
    {
      var slot := markHead;
      StampedMarks(marksSamples[..], marksUnderflow[..], markHead, markCount, Mark(samplesEmitted, underflow));
      marksSamples[slot] := samplesEmitted;
      marksUnderflow[slot] := underflow;
      markHead := (slot + 1) % MARKS;
      if markCount < MARKS {
        markCount := markCount + 1;
      }
      lastMarkSamples := samplesEmitted;
      assert marksSamples[..] == old(marksSamples[..])[slot := samplesEmitted];
      assert marksUnderflow[..] == old(marksUnderflow[..])[slot := underflow];
    }

    /** `take` samples from the cursor, copied to `out` at `off`. */
    method CopyChunk(out: array<real>, off: nat, take: nat)
      requires Ready() && hasFrame && channels == 1 && cursor + take <= blockSize && off + take <= out.Length
      modifies out
      ensures Wide(samples[cursor..cursor + take], 1)
      ensures Patched(out[..], old(out[..]), off, samples[cursor..cursor + take])
    {
      for i := 0 to take
        invariant forall k :: 0 <= k < off || off + i <= k < out.Length ==> out[k] == old(out[k])
        invariant forall k :: off <= k < off + i ==> out[k] == samples[cursor + (k - off)][0]
      {
        out[off + i] := samples[cursor + i][0];
      }
    }

    /** Move the cursor past `take` samples, remembering the last one. */
    method Consume(take: nat, chan: nat, ghost need: nat, ghost front: seq<Column>)
      requires Ready() && hasFrame && 0 < take && cursor + take <= blockSize && take <= need && chan < channels
      requires front == samples[cursor..cursor + take]
      modifies this`cursor, this`holdSample
      ensures Ready() && cursor == old(cursor) + take && holdSample == front[take - 1][chan]
      ensures old(Service(need)) == After(front, Service(need - take))
    {
      PortionOf(samples, cursor, take, bridge.tape, need);
      holdSample := samples[cursor + take - 1][chan];
      cursor := cursor + take;
    }

    /** The value that fills a tail which no frame could fill. */
    function Fill(): real
      reads this
    {
      if policy.ZeroFill? then 0.0 else holdSample
    }

    method HandleUnderflow(out: array<real>, offset: nat, count: nat)
      requires offset + count <= out.Length
      modifies out
      ensures forall k :: 0 <= k < out.Length ==>
                out[k] == if offset <= k < offset + count then Fill() else old(out[k])
    {
      var fill := if policy.ZeroFill? then 0.0 else holdSample;
      for i := 0 to count
        invariant forall k :: 0 <= k < offset || offset + i <= k < out.Length ==> out[k] == old(out[k])
        invariant forall k :: offset <= k < offset + i ==> out[k] == fill
      {
        out[offset + i] := fill;
      }
    }

    /** A pull if the block is used up; then how much of it is wanted, or 0 when the pull found nothing. */
    method Window(written: nat, need: nat) returns (take: nat, ghost pulled: bool)
      requires Ready() && need > 0
      modifies this`cursor, this`hasFrame, this`framesConsumed, this`lastPullAt, this`samples, bridge
      ensures Ready() && take <= need
      ensures framesConsumed == old(framesConsumed) + (if pulled then 1 else 0)
      ensures lastPullAt == if pulled then samplesEmitted + written else old(lastPullAt)
      ensures take > 0 ==> hasFrame && cursor + take <= blockSize
                           && old(Service(need)) == MaybePulled(pulled, Service(need))
      ensures take == 0 ==> !pulled && old(Service(need)) == Starved(bridge.tape) && Pending() == []
    {
      take, pulled := 0, false;
      if !hasFrame || cursor >= blockSize {
        var ok := Refill(written, need);
        if !ok {
          return;
        }
        pulled := true;
      }
      take := if need < blockSize - cursor then need else blockSize - cursor;
    }

    /** One round of the loop of `process`. */
    method DeliverChunk(out: array<real>, written: nat, need: nat)
      returns (take: nat, ghost front: seq<Column>, ghost pulled: bool)
      requires Ready() && channels == 1 && need > 0 && written + need <= out.Length
      modifies this`cursor, this`hasFrame, this`framesConsumed, this`lastPullAt, this`holdSample, this`samples,
        bridge, out
      ensures Ready() && take <= need && |front| == take && Wide(front, 1)
      ensures Patched(out[..], old(out[..]), written, front)
      ensures holdSample == if take == 0 then old(holdSample) else front[take - 1][0]
      ensures framesConsumed == old(framesConsumed) + (if pulled then 1 else 0)
      ensures lastPullAt == if pulled then samplesEmitted + written else old(lastPullAt)
      ensures take > 0 ==> old(Service(need)) == MaybePulled(pulled, After(front, Service(need - take)))
      ensures take == 0 ==> !pulled && old(Service(need)) == Starved(bridge.tape) && Pending() == []
    {
      front := [];
      take, pulled := Window(written, need);
      if take > 0 {
        ghost var mid := Service(need);
        front := samples[cursor..cursor + take];
        CopyChunk(out, written, take);
        assert Service(need) == mid;
        Consume(take, 0, need, front);
      }
    }

    /** The same round, with the request's progress. */
    method DeliverRound(out: array<real>, written: nat, need: nat, ghost goal: Served<Column>, ghost start: Tally,
                        ghost t: Tally, ghost was: seq<real>)
      returns (take: nat, ghost t': Tally)
      requires Ready() && channels == 1 && need > 0 && written + need <= out.Length && written == |t.done|
      requires t == Now(t.done) && Underway(goal, 1, 0, samplesEmitted, start, t, Service(need))
      requires Patched(out[..], was, 0, t.done)
      modifies this`cursor, this`hasFrame, this`framesConsumed, this`lastPullAt, this`holdSample, this`samples,
        bridge, out
      ensures Ready() && take <= need && |t'.done| == written + take && t' == Now(t'.done)
      ensures Wide(t'.done, 1) && Patched(out[..], was, 0, t'.done)
      ensures take == 0 ==> Finished(goal, 1, 0, samplesEmitted, start, t', Pending(), bridge.tape)
      ensures take > 0 ==> Underway(goal, 1, 0, samplesEmitted, start, t', Service(need - take))
    {
      ghost var mid, rest := out[..], Service(need);
      ghost var front, pulled;
      take, front, pulled := DeliverChunk(out, written, need);
      PatchedMore(out[..], mid, was, t.done, front);
      if take == 0 {
        t' := t;
        assert t.done + front == t.done;
        UnderwayEnds(goal, 1, 0, samplesEmitted, start, t, rest, Pending(), bridge.tape);
      } else {
        t' := NextTally(samplesEmitted, t, pulled, front, holdSample);
        UnderwayChunk(goal, 1, 0, samplesEmitted, start, t, rest, pulled, front, holdSample, Service(need - take));
      }
    }

    /** The loop of `process`: fills out[..written], and stops short only on a pull that found nothing. */
    method Deliver(out: array<real>, count: nat) returns (written: nat)
      requires Ready() && channels == 1 && count <= out.Length
      modifies this`cursor, this`hasFrame, this`framesConsumed, this`lastPullAt, this`holdSample, this`samples,
        bridge, out
      ensures Ready()
      ensures var got := old(Service(count)).got;
        && Finished(old(Service(count)), 1, 0, samplesEmitted, old(Now([])), Now(got), Pending(), bridge.tape)
        && written == |got| <= count && Patched(out[..], old(out[..]), 0, got)
    {
      written := 0;
      ghost var goal, start := Service(count), Now([]);
      ghost var was, t := out[..], start;
      while written < count
        invariant Ready() && written == |t.done| <= count && t == Now(t.done)
        invariant Underway(goal, 1, 0, samplesEmitted, start, t, Service(count - written))
        invariant Patched(out[..], was, 0, t.done)
      {
        var take;
        take, t := DeliverRound(out, written, count - written, goal, start, t, was);
        if take == 0 {
          return;
        }
        written := written + take;
      }
      UnderwayEnds(goal, 1, 0, samplesEmitted, start, t, Service(0), Pending(), bridge.tape);
    }

    /** `take` samples of channel c from the cursor, added to `out` at `off`. */
    method AddChunk(out: array<real>, off: nat, take: nat, c: nat, gain: real)
      requires Ready() && hasFrame && c < channels && cursor + take <= blockSize && off + take <= out.Length
      modifies out
      ensures Mixed(out[..], old(out[..]), off, samples[cursor..cursor + take], c, gain)
    {
      if gain != 0.0 {
        AddColumns(out, off, samples[cursor..cursor + take], c, gain);
      }
    }

    /** The inner loops of `_mixWindow`: the one for unit gain leaves the multiplication out. */
    method AddColumns(out: array<real>, off: nat, front: seq<Column>, c: nat, gain: real)
      requires off + |front| <= out.Length && forall j :: 0 <= j < |front| ==> c < |front[j]|
      modifies out
      ensures Mixed(out[..], old(out[..]), off, front, c, gain)
    {
      for i := 0 to |front|
        invariant forall k :: 0 <= k < off || off + i <= k < out.Length ==> out[k] == old(out[k])
        invariant forall k :: off <= k < off + i ==> out[k] == Gained(old(out[k]), gain, front[k - off][c])
      {
        out[off + i] := out[off + i] + if gain == 1.0 then front[i][c] else gain * front[i][c];
      }
    }

    /** The caller's buffers fit the request. */
    predicate Routed(r: Route, left: array<real>, right: array?<real>, upto: nat) {
      && r.channels == channels && r.first < channels && upto <= left.Length && left != right
      && (r.two <==> right != null) && (right != null ==> r.second < channels && upto <= right.Length)
    }

    /** The same window added to every output. */
    method AddWindow(r: Route, left: array<real>, right: array?<real>, off: nat, take: nat)
      requires Ready() && hasFrame && cursor + take <= blockSize && Routed(r, left, right, off + take)
      modifies left, right
      ensures BothMixed(r, (left[..], Contents(right)), old((left[..], Contents(right))), off,
                        samples[cursor..cursor + take])
    {
      AddChunk(left, off, take, r.first, r.gain);
      if right != null {
        AddChunk(right, off, take, r.second, r.gain);
      }
    }

    /** One round of the loop of `_mixWindow`: both outputs read the same columns. */
    method MixChunk(r: Route, left: array<real>, right: array?<real>, written: nat, need: nat)
      returns (take: nat, ghost front: seq<Column>, ghost pulled: bool)
      requires Ready() && need > 0 && Routed(r, left, right, written + need)
      modifies this`cursor, this`hasFrame, this`framesConsumed, this`lastPullAt, this`holdSample, this`samples,
        bridge, left, right
      ensures Ready() && take <= need && |front| == take && Wide(front, channels)
      ensures BothMixed(r, (left[..], Contents(right)), old((left[..], Contents(right))), written, front)
      ensures holdSample == if take == 0 then old(holdSample) else front[take - 1][r.first]
      ensures framesConsumed == old(framesConsumed) + (if pulled then 1 else 0)
      ensures lastPullAt == if pulled then samplesEmitted + written else old(lastPullAt)
      ensures take > 0 ==> old(Service(need)) == MaybePulled(pulled, After(front, Service(need - take)))
      ensures take == 0 ==> !pulled && old(Service(need)) == Starved(bridge.tape) && Pending() == []
    {
      front := [];
      take, pulled := Window(written, need);
      if take > 0 {
        ghost var mid := Service(need);
        front := samples[cursor..cursor + take];
        AddWindow(r, left, right, written, take);
        assert Service(need) == mid;
        Consume(take, r.first, need, front);
      }
    }

    /** The same round, with the request's progress. */
    method MixRound(r: Route, left: array<real>, right: array?<real>, written: nat, need: nat,
                    ghost goal: Served<Column>, ghost start: Tally, ghost t: Tally, ghost was: (seq<real>, seq<real>))
      returns (take: nat, ghost t': Tally)
      requires Ready() && need > 0 && Routed(r, left, right, written + need) && written == |t.done|
      requires t == Now(t.done) && Underway(goal, channels, r.first, samplesEmitted, start, t, Service(need))
      requires BothMixed(r, (left[..], Contents(right)), was, 0, t.done)
      modifies this`cursor, this`hasFrame, this`framesConsumed, this`lastPullAt, this`holdSample, this`samples,
        bridge, left, right
      ensures Ready() && take <= need && |t'.done| == written + take && t' == Now(t'.done)
      ensures BothMixed(r, (left[..], Contents(right)), was, 0, t'.done)
      ensures take == 0 ==> Finished(goal, channels, r.first, samplesEmitted, start, t', Pending(), bridge.tape)
      ensures take > 0 ==> Underway(goal, channels, r.first, samplesEmitted, start, t', Service(need - take))
    {
      ghost var mid, rest := (left[..], Contents(right)), Service(need);
      ghost var front, pulled;
      take, front, pulled := MixChunk(r, left, right, written, need);
      BothMore(r, (left[..], Contents(right)), mid, was, t.done, front);
      if take == 0 {
        t' := t;
        assert t.done + front == t.done;
        UnderwayEnds(goal, channels, r.first, samplesEmitted, start, t, rest, Pending(), bridge.tape);
      } else {
        t' := NextTally(samplesEmitted, t, pulled, front, holdSample);
        UnderwayChunk(goal, channels, r.first, samplesEmitted, start, t, rest, pulled, front, holdSample,
          Service(need - take));
      }
    }

    /** The loop of `_mixWindow`. */
    method MixLoop(r: Route, left: array<real>, right: array?<real>, count: nat) returns (written: nat)
      requires Ready() && Routed(r, left, right, count)
      modifies this`cursor, this`hasFrame, this`framesConsumed, this`lastPullAt, this`holdSample, this`samples,
        bridge, left, right
      ensures Ready()
      ensures var got := old(Service(count)).got;
        && Finished(old(Service(count)), channels, r.first, samplesEmitted, old(Now([])), Now(got), Pending(),
                    bridge.tape)
        && written == |got| <= count
        && BothMixed(r, (left[..], Contents(right)), old((left[..], Contents(right))), 0, got)
    {
      written := 0;
      ghost var goal, start := Service(count), Now([]);
      ghost var was, t := (left[..], Contents(right)), start;
      while written < count
        invariant Ready() && written == |t.done| <= count && t == Now(t.done)
        invariant Underway(goal, channels, r.first, samplesEmitted, start, t, Service(count - written))
        invariant BothMixed(r, (left[..], Contents(right)), was, 0, t.done)
      {
        var take;
        take, t := MixRound(r, left, right, written, count - written, goal, start, t, was);
        if take == 0 {
          return;
        }
        written := written + take;
      }
      UnderwayEnds(goal, channels, r.first, samplesEmitted, start, t, Service(0), Pending(), bridge.tape);
    }

    /** The accounting at the end of every request. */
    method Account(count: nat, written: nat)
      requires Clocked() && written <= count
      modifies this`underflow, this`samplesEmitted, this`markHead, this`markCount, this`lastMarkSamples,
        marksSamples, marksUnderflow
      ensures Clocked()
      ensures samplesEmitted == old(samplesEmitted) + count && underflow == old(underflow) + (count - written)
      ensures Marks() == Stamped(markStride, old(Marks()), old(lastMarkSamples), samplesEmitted, underflow)
    {
      StampedAgree(markStride, Marks(), lastMarkSamples, samplesEmitted, underflow,
        samplesEmitted + count, underflow + (count - written));
      if written < count {
        underflow := underflow + (count - written);
      }
      NoteEmitted(count);
    }

    /** Enter a request of `count` samples, just served, in the session. */
    ghost method NoteRequest(before: Session<Column>, count: nat)
      requires Ready() && before == Play(origin, requests)
      requires Tallied(OneMore(before, count))
      modifies this`requests
      ensures requests == old(requests) + [count] && Tallied(Play(origin, requests))
    {
      PlayMore(origin, requests, count);
      requests := requests + [count];
    }

    /** The end of every request: the counters, the marks and the session. */
    method Settle(count: nat, written: nat, ghost before: Session<Column>)
      requires Ready() && Clocked() && BlocksOf(origin, blockSize) && before == Play(origin, requests)
      requires samplesEmitted == before.emitted && underflow == before.short
      requires var goal := Serve(before.rest, before.tape, count);
        && Pending() == goal.rest && bridge.tape == goal.tape && framesConsumed == before.frames + goal.frames
        && written == |goal.got| <= count
      modifies this`underflow, this`samplesEmitted, this`markHead, this`markCount, this`lastMarkSamples, this`requests,
        marksSamples, marksUnderflow
      ensures Valid() && requests == old(requests) + [count]
      ensures samplesEmitted == old(samplesEmitted) + count && underflow == old(underflow) + (count - written)
      ensures Marks() == Stamped(markStride, old(Marks()), old(lastMarkSamples), samplesEmitted, underflow)
    {
      Account(count, written);
      NoteRequest(before, count);
    }

    /** `process`; false stands for its two thrown errors. Samples that no frame could fill are filled by policy. */
    method Process(out: array<real>, count: int) returns (ok: bool)
      requires Valid()
      modifies this, bridge, marksSamples, marksUnderflow, out
      ensures Valid() && ok == (channels <= 1 && 0 <= count <= out.Length)
      ensures !ok ==> Pending() == old(Pending()) && bridge.tape == old(bridge.tape) && out[..] == old(out[..])
                      && underflow == old(underflow) && samplesEmitted == old(samplesEmitted)
      ensures ok ==> Accounted(old(Service(count)), count)
      ensures ok ==> var got := old(Service(count)).got;
        && |got| <= count && Wide(got, 1)
        && (forall k :: 0 <= k < out.Length ==>
              out[k] == if k < |got| then got[k][0] else if k >= count then old(out[k])
                        else if policy == ZeroFill then 0.0 else holdSample)
        && holdSample == Held(got, 0, old(holdSample))
    {
      ok := channels <= 1 && 0 <= count <= out.Length;
      if !ok {
        return;
      }
      ghost var before := Play(origin, requests);
      var written := Deliver(out, count);
      HandleUnderflow(out, written, count - written);
      Settle(count, written, before);
    }

    /** The stream side and the counters of a request of `count` samples that was served as `goal`. */
    twostate predicate Accounted(new goal: Served<Column>, count: nat)
      requires Valid() && old(Valid())
      reads this, bridge, marksSamples, marksUnderflow
    {
      && Pending() == goal.rest && bridge.tape == goal.tape
      && framesConsumed == old(framesConsumed) + goal.frames
      && lastPullAt == (if goal.lastPull < 0 then old(lastPullAt) else old(samplesEmitted) + goal.lastPull)
      && samplesEmitted == old(samplesEmitted) + count && |goal.got| <= count
      && underflow == old(underflow) + (count - |goal.got|)
      && Marks() == Stamped(markStride, old(Marks()), old(lastMarkSamples), samplesEmitted, underflow)
      && origin == old(origin) && requests == old(requests) + [count]
    }

    /** `_mixWindow`: every output gets its channel of the same columns, the cursor moves once, and an unfilled
        tail is left as the caller had it. */
    method MixWindow(r: Route, left: array<real>, right: array?<real>, count: nat) returns (written: nat)
      requires Valid() && Routed(r, left, right, count)
      modifies this, bridge, marksSamples, marksUnderflow, left, right
      ensures Valid() && Accounted(old(Service(count)), count)
      ensures var got := old(Service(count)).got;
        && written == |got|
        && BothMixed(r, (left[..], Contents(right)), old((left[..], Contents(right))), 0, got)
        && holdSample == Held(got, r.first, old(holdSample))
    {
      ghost var before := Play(origin, requests);
      written := MixLoop(r, left, right, count);
      Settle(count, written, before);
    }

    /** `processAddChannel`, and `processAdd` when there is one channel; `ok` is false where the source throws. */
    method ProcessAddChannel(out: array<real>, channel: int, gain: real, count: int) returns (ok: bool, written: nat)
      requires Valid()
      modifies this, bridge, marksSamples, marksUnderflow, out
      ensures Valid() && ok == (0 <= channel < channels && 0 <= count <= out.Length)
      ensures !ok ==> Pending() == old(Pending()) && bridge.tape == old(bridge.tape) && out[..] == old(out[..])
      ensures ok ==> Accounted(old(Service(count)), count)
      ensures ok ==> var got := old(Service(count)).got;
        && written == |got| && Wide(got, channels)
        && forall k :: 0 <= k < out.Length ==>
             out[k] == if k < |got| then old(out[k]) + gain * got[k][channel] else old(out[k])
    {
      ok, written := 0 <= channel < channels && 0 <= count <= out.Length, 0;
      if ok {
        written := MixWindow(Route(channel, 0, false, gain, channels), out, null, count);
      }
    }

    /** `processAddStereo`: channels 0 and 1 of one window, not of two windows in turn. */
    method ProcessAddStereo(left: array<real>, right: array<real>, gain: real, count: int)
      returns (ok: bool, written: nat)
      requires Valid() && left != right
      modifies this, bridge, marksSamples, marksUnderflow, left, right
      ensures Valid() && ok == (channels >= 2 && 0 <= count <= left.Length && count <= right.Length)
      ensures !ok ==> Pending() == old(Pending()) && bridge.tape == old(bridge.tape)
                      && left[..] == old(left[..]) && right[..] == old(right[..])
      ensures ok ==> Accounted(old(Service(count)), count)
      ensures ok ==> var got := old(Service(count)).got;
        && written == |got| && Wide(got, channels)
        && (forall k :: 0 <= k < left.Length ==>
              left[k] == if k < |got| then old(left[k]) + gain * got[k][0] else old(left[k]))
        && (forall k :: 0 <= k < right.Length ==>
              right[k] == if k < |got| then old(right[k]) + gain * got[k][1] else old(right[k]))
    {
      ok, written := channels >= 2 && 0 <= count <= left.Length && count <= right.Length, 0;
      if ok {
        written := MixWindow(Route(0, 1, true, gain, channels), left, right, count);
      }
    }

    method Reset()
      requires Valid()
      modifies this`cursor, this`hasFrame, this`holdSample, this`underflow, this`framesConsumed, this`samplesEmitted,
        this`lastPullAt, this`markHead, this`markCount, this`lastMarkSamples, this`origin, this`requests
      ensures Valid() && Pending() == [] && Marks() == []
      ensures underflow == framesConsumed == samplesEmitted == 0 && bridge.tape == old(bridge.tape)
      ensures origin == bridge.tape && requests == []
    {
      ghost var ss, us := marksSamples[..], marksUnderflow[..];
      assert MarksOf(ss, us, 0, 0) == [];
      cursor, hasFrame, holdSample := 0, false, 0.0;
      underflow, framesConsumed, samplesEmitted, lastPullAt := 0, 0, 0, 0;
      markHead, markCount, lastMarkSamples := 0, 0, 0;
      origin, requests := bridge.tape, [];
    }

    method RemainingInFrame() returns (n: nat)
      requires Valid()
      ensures n == |Pending()|
    {
      n := if hasFrame then blockSize - cursor else 0;
    }

    /** `underflowRate`: the share of underflow since the latest mark at or before the start of the window, which is
        at most as long as the history kept, or since the oldest mark. It is a fraction without clamping. */
    method UnderflowRate(windowMs: real) returns (thrown: bool, rate: real, ghost k: nat)
      requires Valid()
      ensures thrown == (sampleRate <= 0.0 || windowMs <= 0.0)
      ensures 0.0 <= rate <= 1.0
      ensures markCount == 0 ==> rate == 0.0
      ensures !thrown && markCount > 0 ==>
                && k < markCount && Chosen(Marks(), k, samplesEmitted as real - WindowSamples(windowMs))
                && rate == Share(Marks()[k], samplesEmitted, underflow)
    {
      thrown := sampleRate <= 0.0 || windowMs <= 0.0;
      if thrown || markCount == 0 {
        return thrown, 0.0, 0;
      }
      rate, k := RateSince(samplesEmitted as real - WindowSamples(windowMs));
    }

    /** A window of the given length, or of the whole history if that is shorter, in samples. */
    function WindowSamples(windowMs: real): (w: real)
      ensures windowMs <= underflowWindowMs ==> w == windowMs * sampleRate / 1000.0
      ensures windowMs >= underflowWindowMs ==> w == underflowWindowMs * sampleRate / 1000.0
    {
      (if windowMs < underflowWindowMs then windowMs else underflowWindowMs) * sampleRate / 1000.0
    }

    method RateSince(target: real) returns (rate: real, ghost k: nat)
      requires Valid() && markCount > 0
      ensures 0.0 <= rate <= 1.0 && k < markCount && Chosen(Marks(), k, target)
      ensures rate == Share(Marks()[k], samplesEmitted, underflow)
    {
      var oldest := (markHead - markCount + MARKS) % MARKS;
      k := 0;
      var chosenS, chosenU := marksSamples[oldest], marksUnderflow[oldest];
      assert oldest == Slot(markHead, markCount, 0);
      var j := 1;
      while j < markCount
        invariant k < j <= markCount && k + 1 == j && Chosen(Marks()[..j], k, target)
        invariant chosenS == Marks()[k].emitted && chosenU == Marks()[k].underflow
      {
        var idx := (oldest + j) % MARKS;
        assert idx == Slot(markHead, markCount, j);
        if marksSamples[idx] as real <= target {
          chosenS, chosenU := marksSamples[idx], marksUnderflow[idx];
          k := j;
        } else {
          break;
        }
        j := j + 1;
      }
      var dS := samplesEmitted - chosenS;
      if dS <= 0 {
        return 0.0, k;
      }
      rate := (underflow - chosenU) as real / dS as real;
      FractionBounds(underflow - chosenU, dS);
      if rate < 0.0 {
        rate := 0.0;
      } else if rate > 1.0 {
        rate := 1.0;
      }
    }
  }

  /** Whatever requests a consumer has served, the samples it handed out are, in order, the first of all those pulled,
      the rest are what remains in the current block, and the counters agree with them. */
  lemma {:induction false} ConsumerLossless(k: BridgeBlockConsumer)
    requires k.Valid()
    ensures var s := Play(k.origin, k.requests); var pulls := |k.origin| - |k.bridge.tape|;
      && 0 <= pulls && k.bridge.tape == k.origin[pulls..]
      && s.got + k.Pending() == Flatten(k.origin[..pulls]) && k.framesConsumed == Frames(k.origin[..pulls])
      && k.framesConsumed * k.blockSize == |s.got| + |k.Pending()|
      && k.samplesEmitted == |s.got| + k.underflow
  {
    SessionLossless(k.origin, k.requests, k.blockSize);
  }
}
