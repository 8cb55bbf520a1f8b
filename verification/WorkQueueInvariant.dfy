/** The inductive invariant of MpmcWorkQueue. */
module WorkQueueInvariant {
  import opened Tickets
  import opened WorkQueue
  import Pigeonhole

  /** Every ticket below n has been delivered and its slot freed. */
  ghost predicate DeliveredBelow(l: Log, n: int) {
    forall t :: 0 <= t < n ==> t in l.freed
  }

  /** Ticket t has been claimed and its producer has not yet stored Complete(t). */
  ghost predicate InProgress(c: Config, s: State, t: int)
    requires s.m.Shaped(c)
  {
    && 0 <= t < |s.l.owners|
    && s.l.owners[t] < c.threads
    && s.m.producers[s.l.owners[t]].Writing?
    && s.m.producers[s.l.owners[t]].ticket == t
  }

  /** Ticket t is readable: published and not yet freed. */
  ghost predicate Published(c: Config, s: State, t: int)
    requires s.m.Shaped(c)
  {
    0 <= t < |s.l.owners| && !InProgress(c, s, t) && t !in s.l.freed
  }

  ghost predicate OwnsOnlyBelow(owners: seq<nat>, p: nat, bound: int) {
    forall t :: 0 <= t < |owners| && owners[t] == p ==> t < bound
  }

  ghost predicate TicketsOk(c: Config, s: State) {
    && |s.l.owners| == |s.l.frames| == s.m.enqueueTicket
    && |s.l.claimants| == s.m.dequeueTicket
    && Pigeonhole.Below(s.l.owners, c.threads)
    && Pigeonhole.Below(s.l.claimants, c.consumers)
    && (forall t :: 0 <= t < |s.l.frames| ==> |s.l.frames[t]| == c.words)
    && (forall t :: t in s.l.freed ==> 0 <= t < s.m.enqueueTicket && t < s.m.dequeueTicket)
  }

  /** A producer claims again only after its previous ticket has fallen inside the envelope. */
  ghost predicate PushesSpaced(c: Config, l: Log) {
    forall i, j :: 0 <= i < j < |l.owners| && l.owners[i] == l.owners[j]
      ==> DeliveredBelow(l, i + 1 + c.producerCount - c.capacity)
  }

  /** A consumer claims again only after its previous claim was overtaken by the producers. */
  ghost predicate PullsSpaced(s: State) {
    forall i, j :: 0 <= i < j < |s.l.claimants| && s.l.claimants[i] == s.l.claimants[j]
      ==> i + 2 <= s.m.enqueueTicket
  }

  ghost predicate ProducerOk(c: Config, s: State, p: nat)
    requires s.m.Shaped(c) && TicketsOk(c, s) && p < c.threads
  {
    match s.m.producers[p]
    case Scanning(_, start, f, _) => 0 <= start <= f && DeliveredBelow(s.l, f)
    case Rechecking(_, f) => 0 <= f && DeliveredBelow(s.l, f)
    case StoringFrontier(_, f) => 0 <= f && DeliveredBelow(s.l, f)
    case LoadedTicket(_, w) => 0 <= w <= s.m.enqueueTicket && OwnsOnlyBelow(s.l.owners, p, w)
    case Admitted(_) =>
      forall t :: 0 <= t < |s.l.owners| && s.l.owners[t] == p
        ==> DeliveredBelow(s.l, t + 1 + c.producerCount - c.capacity)
    case Writing(frame, t, k) =>
      && 0 <= t < s.m.enqueueTicket && t !in s.l.freed
      && s.l.owners[t] == p && s.l.frames[t] == frame
      && s.m.payload[c.arith.Slot(t, c.capacity)][..k] == frame[..k]
    case _ => true
  }

  /** What slot t mod capacity holds for each of the last `capacity` tickets claimed (a negative t
      stands for the lap before the first). */
  ghost predicate SlotOk(c: Config, s: State, t: int)
    requires s.m.Shaped(c) && TicketsOk(c, s) && t < s.m.enqueueTicket
  {
    var slot := c.arith.Slot(t, c.capacity);
    if t < 0 || t in s.l.freed then s.m.gen[slot] == t + c.capacity
    else if InProgress(c, s, t) then s.m.gen[slot] == t
    else s.m.gen[slot] == t + 1 && s.m.payload[slot] == s.l.frames[t]
  }

  ghost predicate HeldOk(c: Config, s: State, k: nat)
    requires s.m.Shaped(c) && k < c.consumers && |s.l.outcomes| == c.consumers
  {
    var x := s.m.consumers[k];
    x.held.Claim? ==>
      && 0 <= x.held.ticket < |s.l.claimants|
      && s.l.claimants[x.held.ticket] == k
      && x.held.ticket !in s.l.freed && x.held.ticket !in s.l.stranded
  }

  ghost predicate PositionOk(c: Config, s: State, k: nat)
    requires s.m.Shaped(c) && TicketsOk(c, s) && k < c.consumers && |s.l.outcomes| == c.consumers
  {
    var x := s.m.consumers[k];
    match x.at
    case LoadedHead(r) =>
      && x.held.Nothing? && 0 <= r <= s.m.dequeueTicket && OwnsOnlyBelow(s.l.claimants, k, r)
      && (x.drained ==> s.m.enqueueTicket <= r)
    case Claiming =>
      && x.held.Nothing? && !x.drained && s.m.enqueueTicket >= 1
      && OwnsOnlyBelow(s.l.claimants, k, s.m.enqueueTicket - 1)
    case Reading(out) =>
      && Published(c, s, x.held.ticket)
      && out == s.l.frames[x.held.ticket][..|out|]
    case CountingTorn => false
    case LoadingFinal => s.m.closed
    case CountingStrand => s.m.closed && x.held.ticket >= s.m.enqueueTicket
    case DrainClosed => s.m.closed && x.held.Nothing?
    case DrainTicket(w) => s.m.closed && x.held.Nothing? && w == s.m.enqueueTicket
    case _ => true
  }

  ghost predicate DrainedOk(c: Config, s: State, k: nat)
    requires s.m.Shaped(c) && k < c.consumers
  {
    var x := s.m.consumers[k];
    x.drained ==> s.m.closed && s.m.enqueueTicket <= s.m.dequeueTicket && x.held.Nothing?
  }

  /** What consumer k has got: its own claims, in increasing order, each with its own frame. */
  ghost predicate OutcomeOk(c: Config, s: State, k: nat)
    requires s.m.Shaped(c) && TicketsOk(c, s) && k < c.consumers && |s.l.outcomes| == c.consumers
  {
    var o, held := s.l.outcomes[k], s.m.consumers[k].held;
    && |o.tickets| == |o.frames|
    && (forall i, j :: 0 <= i < j < |o.tickets| ==> o.tickets[i] < o.tickets[j])
    && (forall i :: 0 <= i < |o.tickets| ==>
          && o.tickets[i] in s.l.freed
          && s.l.claimants[o.tickets[i]] == k
          && o.frames[i] == s.l.frames[o.tickets[i]]
          && (held.Claim? ==> o.tickets[i] < held.ticket))
  }

  /** Every claimed dequeue ticket is accounted for: freed, stranded, or still held. */
  ghost predicate ClaimCovered(c: Config, s: State, d: int)
    requires s.m.Shaped(c) && TicketsOk(c, s) && 0 <= d < s.m.dequeueTicket
  {
    d in s.l.freed || d in s.l.stranded || s.m.consumers[s.l.claimants[d]].held == Claim(d)
  }

  ghost predicate StrandsOk(c: Config, s: State)
    requires TicketsOk(c, s)
  {
    && |s.l.stranded| == s.m.strandedClaims
    && (s.l.stranded != {} ==> s.m.closed)
    && (forall d :: d in s.l.stranded ==> s.m.enqueueTicket <= d < s.m.dequeueTicket)
  }

  ghost predicate FreedRecorded(c: Config, s: State)
    requires s.m.Shaped(c) && TicketsOk(c, s) && |s.l.outcomes| == c.consumers
  {
    forall t :: t in s.l.freed ==> t in s.l.outcomes[s.l.claimants[t]].tickets
  }

  ghost predicate ConsumerOk(c: Config, s: State, k: nat)
    requires s.m.Shaped(c) && TicketsOk(c, s) && k < c.consumers && |s.l.outcomes| == c.consumers
  {
    HeldOk(c, s, k) && PositionOk(c, s, k) && DrainedOk(c, s, k) && OutcomeOk(c, s, k)
  }

  ghost predicate Shape(c: Config, s: State) {
    && c.arith.Unbounded? && c.threads <= c.producerCount
    && s.m.Shaped(c) && |s.l.outcomes| == c.consumers
    && TicketsOk(c, s)
  }

  ghost predicate Inv(c: Config, s: State) {
    && Shape(c, s)
    && 0 <= s.m.frontier && DeliveredBelow(s.l, s.m.frontier)
    && DeliveredBelow(s.l, s.m.enqueueTicket - c.capacity)
    && PushesSpaced(c, s.l) && PullsSpaced(s) && (s.m.dequeueTicket > 0 ==> s.m.enqueueTicket > 0)
    && (forall p: nat :: p < c.threads ==> ProducerOk(c, s, p))
    && (forall t :: s.m.enqueueTicket - c.capacity <= t < s.m.enqueueTicket ==> SlotOk(c, s, t))
    && (forall k: nat :: k < c.consumers ==> ConsumerOk(c, s, k))
    && (forall d :: 0 <= d < s.m.dequeueTicket ==> ClaimCovered(c, s, d))
    && StrandsOk(c, s) && FreedRecorded(c, s)
    && s.m.tornGuarded == 0
  }
}
