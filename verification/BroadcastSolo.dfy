/** What one `pull` of SpmcRing does when no other thread moves meanwhile, from any state of any run. */
module BroadcastSolo {
  import opened Tickets
  import opened BroadcastRing
  import opened BroadcastSafety
  import opened Polling

  /** n steps of reader k. */
  function Own(k: nat, n: nat): (actions: seq<Action>)
    ensures |actions| == n && forall i :: 0 <= i < n ==> actions[i] == Pull(k)
  {
    seq(n, _ => Pull(k))
  }

  /** All that reader k's own steps can change. */
  datatype View = View(r: Reader, o: Outcome)

  function ViewOf(c: Config, s: State, k: nat): View
    requires s.m.Shaped(c) && |s.l.outcomes| == c.consumers && k < c.consumers
  {
    View(s.m.readers[k], s.l.outcomes[k])
  }

  function Seen(s: State, k: nat, v: View): State
    requires k < |s.m.readers| && k < |s.l.outcomes|
  {
    State(s.m.(readers := s.m.readers[k := v.r]), s.l.(outcomes := s.l.outcomes[k := v.o]))
  }

  /** Where the call looks: at its cursor, or at the oldest frame of the window if the producer is further ahead. */
  function HeadFor(c: Config, m: Machine, pos: int): int {
    if m.writeTicket - c.capacity > pos then m.writeTicket - c.capacity else pos
  }

  /** The frame of ticket `head` is complete and not overwritten. */
  predicate Live(c: Config, s: State, head: int) {
    |s.l.pushed| - c.capacity <= head < |s.l.pushed| && !(s.m.producer.Writing? && head == |s.l.pushed| - 1)
  }

  predicate Lapped(c: Config, s: State, head: int) {
    head < |s.l.pushed| - c.capacity
  }

  /** The tickets before the head counted as lost. */
  function Passed(v: View, head: int): View {
    var pos := v.r.dequeuePos;
    if head > pos then View(v.r.(dropped := v.r.dropped + (head - pos)), v.o.(lost := v.o.lost + Span(pos, head)))
    else v
  }

  /** What is left at the end, for a head that is there, lapped, or neither. */
  function Done(c: Config, s: State, v1: View, head: int): View {
    if Live(c, s, head) && head >= 0 then
      View(v1.r.(dequeuePos := head + 1, at := Resting),
           v1.o.(tickets := v1.o.tickets + [head], frames := v1.o.frames + [s.l.pushed[head]]))
    else if Lapped(c, s, head) then
      View(v1.r.(dequeuePos := head + 1, dropped := v1.r.dropped + 1, at := Resting),
           v1.o.(lost := v1.o.lost + {head}))
    else View(v1.r.(dequeuePos := head, at := Resting), v1.o)
  }

  function Result(c: Config, s: State, v: View): View {
    var head := HeadFor(c, s.m, v.r.dequeuePos);
    Done(c, s, Passed(v, head), head)
  }

  /** Steps up to the generation load. */
  function Lead(c: Config, s: State, v: View): nat {
    if HeadFor(c, s.m, v.r.dequeuePos) > v.r.dequeuePos then 3 else 2
  }

  /** Steps of the whole call. */
  function Length(c: Config, s: State, v: View): nat {
    var head := HeadFor(c, s.m, v.r.dequeuePos);
    Lead(c, s, v) + (if Live(c, s, head) then c.words + 3 else if Lapped(c, s, head) then 3
                     else if head > v.r.dequeuePos then 2 else 1)
  }

  /** The view after i steps. */
  function Expected(c: Config, s: State, v: View, i: nat): View
    requires v.r.dequeuePos >= 0 && (forall t :: 0 <= t < |s.l.pushed| ==> |s.l.pushed[t]| == c.words)
    requires i <= Length(c, s, v)
  {
    var pos := v.r.dequeuePos;
    var head, lead := HeadFor(c, s.m, pos), Lead(c, s, v);
    if i == 0 then v
    else if i == 1 then v.(r := v.r.(at := LoadedHead(pos)))
    else if i < lead then v.(r := v.r.(at := CountingLoss(pos, head, head - pos)))
    else if i == lead then At(Passed(v, head), AtGate(pos, head))
    else if i == Length(c, s, v) then Result(c, s, v)
    else Inside(c, s, Passed(v, head), pos, head, i - lead - 1)
  }

  function At(v: View, at: Position): View {
    v.(r := v.r.(at := at))
  }

  /** The view j steps after the generation load. */
  function Inside(c: Config, s: State, v1: View, pos: int, head: int, j: nat): View
    requires 0 <= pos <= head && (forall t :: 0 <= t < |s.l.pushed| ==> |s.l.pushed[t]| == c.words)
  {
    if Live(c, s, head) then
      if j <= c.words then At(v1, Reading(head, Complete(head), s.l.pushed[head][..j]))
      else At(v1, Storing(head, s.l.pushed[head]))
    else if Lapped(c, s, head) then
      if j == 0 then At(v1, CountingDrop(head))
      else View(v1.r.(dropped := v1.r.dropped + 1, at := StoringSkip(head)), v1.o.(lost := v1.o.lost + {head}))
    else At(v1, StoringCatchUp(head))
  }

  function Moved(c: Config, s: State, v: View): View
    requires s.m.Shaped(c) && (v.r.at.Reading? ==> |v.r.at.out| <= c.words)
  {
    View(ReaderStep(c, s.m, v.r), RecordReader(v.o, v.r.at))
  }

  /** The stamp that the gate finds. */
  lemma {:induction false} HeadStamp(c: Config, s: State, head: int)
    requires Inv(c, s) && 0 <= head <= |s.l.pushed| && head >= s.m.writeTicket - c.capacity
    ensures var d := s.m.gen[c.Slot(head)] - Complete(head);
      && (Live(c, s, head) ==> d == 0 && s.m.payload[c.Slot(head)] == s.l.pushed[head])
      && (Lapped(c, s, head) ==> d >= 2)
      && (!Live(c, s, head) && !Lapped(c, s, head) ==> d != 0 && d < 2)
  {
    var n := |s.l.pushed|;
    if head == n {
      NextLap(n - c.capacity, c.capacity);
      assert SlotOk(c, s, n - c.capacity);
    } else if head >= n - c.capacity {
      assert SlotOk(c, s, head);
    } else {
      NextLap(head, c.capacity);
      assert SlotOk(c, s, head + c.capacity);
    }
  }

  lemma {:induction false} GateStep(c: Config, s: State, v: View, pos: int, head: int)
    requires Inv(c, s) && 0 <= pos <= head <= |s.l.pushed| && head >= s.m.writeTicket - c.capacity
    requires v.r.at == AtGate(pos, head)
    ensures Moved(c, s, v) == if Live(c, s, head) || Lapped(c, s, head) || head > pos
                              then Inside(c, s, v, pos, head, 0) else At(v, Resting)
  {
    HeadStamp(c, s, head);
    if Live(c, s, head) {
      assert s.l.pushed[head][..0] == [];
    }
  }

  lemma {:induction false} ReadStep(c: Config, s: State, v1: View, pos: int, head: int, j: nat)
    requires Inv(c, s) && 0 <= pos <= head && Live(c, s, head) && head >= s.m.writeTicket - c.capacity && j <= c.words
    ensures Moved(c, s, Inside(c, s, v1, pos, head, j)) == Inside(c, s, v1, pos, head, j + 1)
  {
    HeadStamp(c, s, head);
    var frame := s.l.pushed[head];
    if j < c.words {
      assert frame[..j + 1] == frame[..j] + [frame[j]];
    } else {
      assert frame[..j] == frame;
    }
  }

  /** Reader k stands between two of its calls. */
  ghost predicate Ready(c: Config, s: State, k: nat) {
    Inv(c, s) && k < c.consumers && s.m.readers[k].at.Resting? && ReaderOk(c, s, k)
  }

  lemma HeadInReach(c: Config, s: State, k: nat)
    requires Ready(c, s, k)
    ensures var pos := s.m.readers[k].dequeuePos; var head := HeadFor(c, s.m, pos);
      0 <= pos <= head <= |s.l.pushed| && head >= s.m.writeTicket - c.capacity
  {
  }

  /** The steps before the generation load. */
  lemma {:induction false} Approach(c: Config, s: State, k: nat, i: nat)
    requires Ready(c, s, k) && i < Lead(c, s, ViewOf(c, s, k))
    ensures var v := ViewOf(c, s, k); var w := Expected(c, s, v, i);
      !w.r.at.Reading? && Moved(c, s, w) == Expected(c, s, v, i + 1)
  {
  }

  /** The steps after it. */
  lemma {:induction false} InsideStep(c: Config, s: State, v1: View, pos: int, head: int, j: nat)
    requires Inv(c, s) && 0 <= pos <= head && head >= s.m.writeTicket - c.capacity
    requires j < if Live(c, s, head) then c.words + 1 else if Lapped(c, s, head) then 1 else 0
    ensures var w := Inside(c, s, v1, pos, head, j);
      (w.r.at.Reading? ==> |w.r.at.out| <= c.words) && Moved(c, s, w) == Inside(c, s, v1, pos, head, j + 1)
  {
    if Live(c, s, head) {
      ReadStep(c, s, v1, pos, head, j);
    }
  }

  lemma {:induction false} LastStep(c: Config, s: State, v1: View, pos: int, head: int, j: nat)
    requires Inv(c, s) && 0 <= pos <= head && head >= s.m.writeTicket - c.capacity
    requires j == if Live(c, s, head) then c.words + 1 else if Lapped(c, s, head) then 1 else 0
    ensures var w := Inside(c, s, v1, pos, head, j); !w.r.at.Reading? && Moved(c, s, w) == Done(c, s, v1, head)
  {
  }

  lemma GateDone(c: Config, s: State, v1: View, pos: int, head: int)
    requires pos == head == v1.r.dequeuePos && !Live(c, s, head) && !Lapped(c, s, head)
    ensures At(v1, Resting) == Done(c, s, v1, head)
  {
  }

  lemma {:induction false} ExpectedStep(c: Config, s: State, k: nat, i: nat)
    requires Ready(c, s, k) && i < Length(c, s, ViewOf(c, s, k))
    ensures var v := ViewOf(c, s, k); var w := Expected(c, s, v, i);
      (w.r.at.Reading? ==> |w.r.at.out| <= c.words) && Moved(c, s, w) == Expected(c, s, v, i + 1)
  {
    var v := ViewOf(c, s, k);
    var pos, lead := v.r.dequeuePos, Lead(c, s, v);
    var head := HeadFor(c, s.m, pos);
    var v1 := Passed(v, head);
    HeadInReach(c, s, k);
    if i < lead {
      Approach(c, s, k, i);
    } else if i == lead {
      GateStep(c, s, At(v1, AtGate(pos, head)), pos, head);
      if !Live(c, s, head) && !Lapped(c, s, head) && head == pos {
        GateDone(c, s, v1, pos, head);
      }
    } else if i + 1 < Length(c, s, v) {
      InsideStep(c, s, v1, pos, head, i - lead - 1);
    } else {
      LastStep(c, s, v1, pos, head, i - lead - 1);
    }
  }

  /** A reader's step depends on no reader but itself, and changes no other. */
  lemma SeenStep(c: Config, s: State, k: nat, v: View)
    requires s.m.Shaped(c) && |s.l.outcomes| == c.consumers && k < c.consumers
    requires v.r.at.Reading? ==> |v.r.at.out| <= c.words
    ensures Seen(s, k, v).m.Shaped(c) && Next(c, Seen(s, k, v), Pull(k)) == Seen(s, k, Moved(c, s, v))
  {
  }

  /** A step of reader k, as a function of the state. */
  function Stepping(c: Config, k: nat): State -> State {
    (s: State) => if s.m.Shaped(c) && |s.l.outcomes| == c.consumers then Next(c, s, Pull(k)) else s
  }

  /** The state after n steps of reader k and of no other thread. */
  function Alone(c: Config, s: State, k: nat, n: nat): State {
    Iterate(Stepping(c, k), s, n)
  }

  lemma {:induction false} AloneShaped(c: Config, s: State, k: nat, n: nat)
    requires s.m.Shaped(c) && |s.l.outcomes| == c.consumers
    ensures Alone(c, s, k, n).m.Shaped(c) && |Alone(c, s, k, n).l.outcomes| == c.consumers
    decreases n
  {
    if n > 0 {
      AloneShaped(c, s, k, n - 1);
    }
  }

  lemma {:induction false} LastOwn(c: Config, actions: seq<Action>, k: nat, n: nat)
    requires c.Valid()
    ensures Run(c, actions + Own(k, n + 1)) == Next(c, Run(c, actions + Own(k, n)), Pull(k))
  {
    assert (actions + Own(k, n + 1))[..|actions| + n] == actions + Own(k, n);
  }

  lemma {:induction false} RunAlone(c: Config, actions: seq<Action>, k: nat, n: nat)
    requires c.Valid()
    ensures Run(c, actions + Own(k, n)) == Alone(c, Run(c, actions), k, n)
    decreases n
  {
    if n == 0 {
      assert actions + Own(k, 0) == actions;
    } else {
      RunAlone(c, actions, k, n - 1);
      LastOwn(c, actions, k, n - 1);
    }
  }

  /** After i of its own steps the reader is where Expected says, and nothing else has moved. */
  lemma {:induction false} After(c: Config, s: State, k: nat, i: nat)
    requires Ready(c, s, k) && i <= Length(c, s, ViewOf(c, s, k))
    ensures Alone(c, s, k, i) == Seen(s, k, Expected(c, s, ViewOf(c, s, k), i))
    decreases i
  {
    if i > 0 {
      After(c, s, k, i - 1);
      ExpectedStep(c, s, k, i - 1);
      SeenStep(c, s, k, Expected(c, s, ViewOf(c, s, k), i - 1));
    }
  }

  predicate AtRest(s: State, k: nat) {
    k < |s.m.readers| && s.m.readers[k].at.Resting?
  }

  function Rests(k: nat): State -> bool {
    s => AtRest(s, k)
  }

  /** The reader's next n steps are one call. */
  ghost predicate CallOf(c: Config, s: State, k: nat, n: nat) {
    Call(Stepping(c, k), Rests(k), s, n)
  }

  lemma {:induction false} WholeCall(c: Config, s: State, k: nat) returns (n: nat)
    requires Ready(c, s, k)
    ensures CallOf(c, s, k, n) && Alone(c, s, k, n) == Seen(s, k, Result(c, s, ViewOf(c, s, k)))
  {
    n := Length(c, s, ViewOf(c, s, k));
    After(c, s, k, n);
    forall i | 0 < i < n ensures !AtRest(Iterate(Stepping(c, k), s, i), k) {
      After(c, s, k, i);
    }
  }

  lemma {:induction false} AlwaysReady(c: Config, actions: seq<Action>, k: nat)
    requires c.Valid() && c.arith.Unbounded? && k < c.consumers && AtRest(Run(c, actions), k)
    ensures Ready(c, Run(c, actions), k)
  {
    RunKeeps(c, actions);
    assert ReaderOk(c, Run(c, actions), k);
  }

  /** What a call leaves wherever the producer is parked. It looks at ticket head = max(cursor, writeTicket - capacity)
      and counts the tickets before it as lost. If that frame is there and whole, it is delivered; if its slot has been
      taken for the next lap, it is counted as lost too; otherwise the call comes back with nothing and the cursor at
      head. */
  predicate Answered(c: Config, s: State, k: nat, s': State)
    requires k < |s.m.readers| == |s.l.outcomes| && k < |s'.m.readers| == |s'.l.outcomes|
  {
    var r, r', o, o' := s.m.readers[k], s'.m.readers[k], s.l.outcomes[k], s'.l.outcomes[k];
    var head := if s.m.writeTicket - c.capacity > r.dequeuePos then s.m.writeTicket - c.capacity else r.dequeuePos;
    var total := |s.l.pushed|;
    var gone := head < total - c.capacity;
    var there := !gone && head < total && !(s.m.producer.Writing? && head == total - 1);
    && r.dequeuePos >= 0 && r'.dequeuePos == head + (if there || gone then 1 else 0)
    && r'.dropped == r.dropped + (head - r.dequeuePos) + (if gone then 1 else 0)
    && r'.tornGuarded == r.tornGuarded
    && o'.tickets == o.tickets + (if there then [head] else [])
    && o'.frames == o.frames + (if there then [s.l.pushed[head]] else [])
    && s'.m == s.m.(readers := s.m.readers[k := r']) && s'.l.pushed == s.l.pushed
  }

  lemma {:induction false} ResultAnswers(c: Config, s: State, k: nat)
    requires s.m.Shaped(c) && |s.l.outcomes| == c.consumers && k < c.consumers
    requires s.m.readers[k].at.Resting? && s.m.readers[k].dequeuePos >= 0
    ensures Answered(c, s, k, Seen(s, k, Result(c, s, ViewOf(c, s, k))))
  {
  }

  lemma {:induction false} CallAnswers(c: Config, s: State, k: nat) returns (n: nat)
    requires Ready(c, s, k)
    ensures CallOf(c, s, k, n)
    ensures |Alone(c, s, k, n).m.readers| == |Alone(c, s, k, n).l.outcomes| == c.consumers
    ensures Answered(c, s, k, Alone(c, s, k, n))
  {
    n := WholeCall(c, s, k);
    ResultAnswers(c, s, k);
  }

  /** The answer to an undisturbed `pull`, from any state of any run. */
  lemma {:induction false} PullAlone(c: Config, actions: seq<Action>, k: nat) returns (n: nat)
    requires c.Valid() && c.arith.Unbounded? && k < c.consumers && AtRest(Run(c, actions), k)
    ensures CallOf(c, Run(c, actions), k, n) && Answered(c, Run(c, actions), k, Run(c, actions + Own(k, n)))
  {
    AlwaysReady(c, actions, k);
    n := CallAnswers(c, Run(c, actions), k);
    RunAlone(c, actions, k, n);
  }

  /** A reader whose re-read finds another stamp gives the frame up: whatever the others do between its four steps, both
      counters go up by one and the cursor moves past the ticket. */
  lemma TornDiscard(c: Config, m: Machine, r: Reader, m1: Machine, m2: Machine, m3: Machine)
    requires m.Shaped(c) && m1.Shaped(c) && m2.Shaped(c) && m3.Shaped(c)
    requires r.at.Reading? && |r.at.out| == c.words && m.gen[c.Slot(r.at.head)] != r.at.seq1
    ensures ReaderStep(c, m3, ReaderStep(c, m2, ReaderStep(c, m1, ReaderStep(c, m, r))))
         == Reader(c.arith.Lane(r.at.head + 1), c.arith.Lane(r.dropped + 1), c.arith.Lane(r.tornGuarded + 1), Resting)
  {
  }

  /** Reader k and the producer both stand between calls. */
  ghost predicate Quiet(c: Config, s: State, k: nat) {
    Ready(c, s, k) && s.m.producer.Idle?
  }

  /** What a call hands out and leaves when nobody is in its way. */
  predicate Served(c: Config, s: State, k: nat, s': State)
    requires c.Valid() && k < |s.m.readers| == |s.l.outcomes| && k < |s'.m.readers| == |s'.l.outcomes|
  {
    var r, r', o, o' := s.m.readers[k], s'.m.readers[k], s.l.outcomes[k], s'.l.outcomes[k];
    && s.m.writeTicket == |s.l.pushed| && 0 <= r.dequeuePos <= s.m.writeTicket
    && (r.dequeuePos == s.m.writeTicket ==> s' == s)
    && (r.dequeuePos < s.m.writeTicket ==>
          var head := if s.m.writeTicket - c.capacity > r.dequeuePos then s.m.writeTicket - c.capacity
                      else r.dequeuePos;
          && o'.tickets == o.tickets + [head] && o'.frames == o.frames + [s.l.pushed[head]]
          && r'.dequeuePos == head + 1 && r'.dropped == r.dropped + (head - r.dequeuePos)
          && s'.m == s.m.(readers := s.m.readers[k := r']) && s'.l.pushed == s.l.pushed)
  }

  lemma ResultServes(c: Config, s: State, k: nat)
    requires c.Valid() && k < |s.m.readers| == |s.l.outcomes| == c.consumers && s.m.Shaped(c)
    requires s.m.readers[k].at.Resting? && s.m.producer.Idle?
    requires 0 <= s.m.readers[k].dequeuePos <= s.m.writeTicket == |s.l.pushed|
    ensures Served(c, s, k, Seen(s, k, Result(c, s, ViewOf(c, s, k))))
  {
  }

  lemma {:induction false} QuietCall(c: Config, s: State, k: nat) returns (n: nat)
    requires Quiet(c, s, k)
    ensures CallOf(c, s, k, n)
    ensures |Alone(c, s, k, n).m.readers| == |Alone(c, s, k, n).l.outcomes| == c.consumers
    ensures Served(c, s, k, Alone(c, s, k, n))
  {
    n := WholeCall(c, s, k);
    ResultServes(c, s, k);
  }

  /** So with the producer between its calls too, a `pull` delivers exactly if the reader is behind, and then the
      frame at its cursor, or the oldest of the last `capacity` frames, with the tickets in between counted as lost. */
  lemma {:induction false} PullWhenIdle(c: Config, actions: seq<Action>, k: nat) returns (n: nat)
    requires c.Valid() && c.arith.Unbounded? && k < c.consumers
    requires AtRest(Run(c, actions), k) && Run(c, actions).m.producer.Idle?
    ensures CallOf(c, Run(c, actions), k, n) && Served(c, Run(c, actions), k, Run(c, actions + Own(k, n)))
  {
    AlwaysReady(c, actions, k);
    n := QuietCall(c, Run(c, actions), k);
    RunAlone(c, actions, k, n);
  }

  // Any number of undisturbed calls

  function Got(s: State, k: nat): nat {
    if k < |s.l.outcomes| then |s.l.outcomes[k].frames| else 0
  }

  predicate Behind(s: State, k: nat) {
    k < |s.m.readers| && s.m.readers[k].dequeuePos < s.m.writeTicket
  }

  ghost function Asking(c: Config, k: nat): Caller<State> {
    Caller(Stepping(c, k), Rests(k), s => Quiet(c, s, k), s => Behind(s, k), s => Got(s, k))
  }

  lemma {:induction false} StaysQuiet(c: Config, s: State, k: nat, n: nat)
    requires Quiet(c, s, k)
    ensures Inv(c, Alone(c, s, k, n)) && Alone(c, s, k, n).m.producer.Idle?
    ensures AtRest(Alone(c, s, k, n), k) ==> Quiet(c, Alone(c, s, k, n), k)
    decreases n
  {
    if n > 0 {
      StaysQuiet(c, s, k, n - 1);
      StepKeeps(c, Alone(c, s, k, n - 1), Pull(k));
    }
    assert ReaderOk(c, Alone(c, s, k, n), k);
  }

  lemma {:induction false} QuietServes(c: Config, s: State, k: nat)
    requires Quiet(c, s, k)
    ensures Asking(c, k).Serves(s)
  {
    var n := QuietCall(c, s, k);
    StaysQuiet(c, s, k, n);
    assert Asking(c, k).Answers(s, Iterate(Stepping(c, k), s, n));
  }

  lemma {:induction false} GoodReader(c: Config, k: nat)
    ensures Good(Asking(c, k))
  {
    forall s | Quiet(c, s, k) ensures Asking(c, k).Serves(s) {
      QuietServes(c, s, k);
    }
    forall s ensures Got(s, k) <= Got(Stepping(c, k)(s), k) {
    }
  }

  /** Undisturbed calls that have not handed out two frames are as good as one call. */
  lemma {:induction false} CallsWhenIdle(c: Config, actions: seq<Action>, k: nat, n: nat)
    requires c.Valid() && c.arith.Unbounded? && k < c.consumers && n > 0
    requires AtRest(Run(c, actions), k) && Run(c, actions).m.producer.Idle? && AtRest(Run(c, actions + Own(k, n)), k)
    requires Got(Run(c, actions + Own(k, n)), k) <= Got(Run(c, actions), k) + 1
    ensures Served(c, Run(c, actions), k, Run(c, actions + Own(k, n)))
  {
    AlwaysReady(c, actions, k);
    RunAlone(c, actions, k, n);
    GoodReader(c, k);
    var n0 := OneIsEnough(Asking(c, k), Run(c, actions), n);
    var n1 := QuietCall(c, Run(c, actions), k);
    assert n0 == n1;
  }
}
