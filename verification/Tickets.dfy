/** Ticket arithmetic shared by the three rings, in two readings: tickets that never wrap, and the
    Int32 lanes of the shared buffer. A ring's steps are written once, over `Arithmetic`. */
module Tickets {
  import Int32

  type Word = int
  type Frame = seq<Word>

  datatype Arithmetic = Unbounded | Wrapped {

    /** The value a lane holds after a store of x. */
    function Lane(x: int): int {
      if Wrapped? then Int32.ToInt32(x) else x
    }

    /** `signedDiff(a, b)` */
    function Diff(a: int, b: int): int {
      Lane(a - b)
    }

    /** `(ticket >>> 0) & mask`, mask being capacity - 1 */
    function Slot(ticket: int, capacity: nat): (s: nat)
      requires capacity > 0
      ensures s < capacity
    {
      if Wrapped? then
        Int32.AndBound(Int32.ToUint32(ticket), capacity - 1);
        Int32.And(Int32.ToUint32(ticket), capacity - 1)
      else ticket % capacity
    }
  }

  /** Tickets less than a lap apart never share a slot. */
  lemma SlotsDiffer(i: int, j: int, capacity: nat)
    requires capacity > 0 && i < j < i + capacity
    ensures i % capacity != j % capacity
  {
    var q := j / capacity - i / capacity;
    assert capacity * q == capacity * (j / capacity) - capacity * (i / capacity);
    assert j - i == capacity * q + (j % capacity - i % capacity);
    Int32.MultipleInside(capacity, q);
  }

  /** In the first lap a ticket is its own slot. */
  lemma FirstLap(ticket: int, capacity: nat)
    requires 0 <= ticket < capacity
    ensures Unbounded.Slot(ticket, capacity) == ticket
  {
    Int32.ModUnique(ticket, capacity, 0, ticket);
  }

  lemma WindowDistinct(lo: int, capacity: nat)
    requires capacity > 0
    ensures forall i, j :: lo <= i < lo + capacity && lo <= j < lo + capacity && i != j
              ==> Unbounded.Slot(i, capacity) != Unbounded.Slot(j, capacity)
  {
    forall i, j | lo <= i < lo + capacity && lo <= j < lo + capacity && i != j
      ensures Unbounded.Slot(i, capacity) != Unbounded.Slot(j, capacity)
    {
      if i < j {
        SlotsDiffer(i, j, capacity);
      } else {
        SlotsDiffer(j, i, capacity);
      }
    }
  }

  /** A slot comes round again exactly one lap later. */
  lemma NextLap(ticket: int, capacity: nat)
    requires capacity > 0
    ensures Unbounded.Slot(ticket + capacity, capacity) == Unbounded.Slot(ticket, capacity)
  {
    assert ticket + capacity == capacity * (ticket / capacity + 1) + ticket % capacity by {
      assert capacity * (ticket / capacity + 1) == capacity * (ticket / capacity) + capacity;
    }
    Int32.ModUnique(ticket + capacity, capacity, ticket / capacity + 1, ticket % capacity);
  }
}
