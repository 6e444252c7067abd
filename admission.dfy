/**
 * The admission gate: the handler's semaphore channel of capacity
 * MaxClients, of which only the number of held slots matters.
 */
module Admission {
  /** What happened to the gate: a slot was taken, or one was given back. */
  datatype GateEvent = Acquired | Released

  class Gate {
    const capacity: nat
    var count: nat
    ghost var log: seq<GateEvent>  // every acquire and release, in order

    /** No more slots are held than there are. */
    ghost predicate Valid()
      reads this
    {
      count <= capacity
    }

    constructor (capacity: nat)
      ensures Valid() && this.capacity == capacity && count == 0 && log == []
    {
      this.capacity := capacity;
      count := 0;
      log := [];
    }

    /** A non-blocking acquire: takes one slot if one is free, otherwise changes nothing. */
    method TryAdmit() returns (admitted: bool)
      requires Valid()
      modifies this
      ensures Valid()
      ensures admitted <==> old(count) < capacity
      ensures count == if admitted then old(count) + 1 else old(count)
      ensures log == old(log) + if admitted then [Acquired] else []
    {
      admitted := count < capacity;
      if admitted {
        count := count + 1;
        log := log + [Acquired];
      }
    }

    /** Gives back a slot taken by TryAdmit. */
    method Release()
      requires Valid() && count > 0
      modifies this
      ensures Valid() && count == old(count) - 1
      ensures log == old(log) + [Released]
    {
      count := count - 1;
      log := log + [Released];
    }
  }
}
