/** The bulkhead: a bounded count of slots. The semaphore behind it is a number of
    free permits; a guard is returned by `Release`, which its drop calls. */
module Bulkheads {
  class Bulkhead {
    const capacity: nat
    var available: nat
    /** Guards handed out and not yet dropped. */
    ghost var held: nat

    ghost predicate Valid()
      reads this
    {
      capacity >= 1 && available + held == capacity
    }

    constructor (capacity: nat)
      ensures Valid() && held == 0
      ensures this.capacity == if capacity < 1 then 1 else capacity
    {
      this.capacity := if capacity < 1 then 1 else capacity;
      available := if capacity < 1 then 1 else capacity;
      held := 0;
    }

    /** A slot, exactly when fewer than `capacity` guards are out. */
    method TryAcquire() returns (ok: bool)
      requires Valid()
      modifies this
      ensures Valid()
      ensures ok <==> old(held) < capacity
      ensures held == old(held) + if ok then 1 else 0
    {
      ok := available > 0;
      if ok {
        available, held := available - 1, held + 1;
      }
    }

    /** Dropping a guard. */
    method Release()
      requires Valid() && held > 0
      modifies this
      ensures Valid()
      ensures held == old(held) - 1
    {
      available, held := available + 1, held - 1;
    }
  }
}
