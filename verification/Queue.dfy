/**
  The denial queue of crates/rahi-kernel/src/lib.rs: what each critical section of its lock does.

  A queued decision stands for itself by its id. The functions on `Pending` say what one locked section
  changes; the class is the queue as the kernel holds it, and the concurrent runs are in module Denials.
*/
module Queue {
  import opened Wrappers

  type Id = nat

  /** What the mutex guards. */
  datatype Pending = Pending(waiting: seq<Id>, appending: Option<Id>, closed: bool)

  const EMPTY := Pending([], None, false)

  function Held(id: Option<Id>): seq<Id> {
    if id.Some? then [id.value] else []
  }

  /** Everything the appender still owes, oldest first. */
  function Owed(p: Pending): seq<Id> {
    Held(p.appending) + p.waiting
  }

  function Pushed(p: Pending, capacity: nat, id: Id): Pending {
    if |p.waiting| >= capacity then p else p.(waiting := p.waiting + [id])
  }

  /** The locked part of `next`: the oldest waiting decision becomes the one being written. */
  function Taken(p: Pending): Pending {
    if p.waiting == [] then p else p.(waiting := p.waiting[1..], appending := Some(p.waiting[0]))
  }

  function Settled(p: Pending, id: Id): Pending {
    if p.appending == Some(id) then p.(appending := None) else p
  }

  function Abandoned(p: Pending): Pending {
    p.(waiting := [], appending := None)
  }

  /** What `next` found under the lock. */
  datatype Found = Work(id: Id) | Closed | Nothing

  class DenialQueue {
    var waiting: seq<Id>
    var appending: Option<Id>
    var closed: bool
    const capacity: nat

    function Contents(): Pending
      reads this
    {
      Pending(waiting, appending, closed)
    }

    constructor (capacity: nat)
      ensures Contents() == EMPTY && this.capacity == capacity
    {
      waiting, appending, closed := [], None, false;
      this.capacity := capacity;
    }

    /** Accepts the decision behind every earlier one, or refuses it and changes nothing. */
    method Push(id: Id) returns (accepted: bool)
      modifies this
      ensures accepted <==> |old(waiting)| < capacity
      ensures Contents() == Pushed(old(Contents()), capacity, id)
      ensures Owed(Contents()) == old(Owed(Contents())) + if accepted then [id] else []
    {
      if |waiting| >= capacity {
        return false;
      }
      waiting := waiting + [id];
      return true;
    }

    method CountOwed() returns (count: nat)
      ensures count == |Owed(Contents())|
    {
      count := |waiting| + if appending.Some? then 1 else 0;
    }

    /** One locked look of `next`. The appender holding nothing else, nothing is forgotten by it: the
        decision it takes was the oldest owed one and stays owed. */
    method Take() returns (found: Found)
      modifies this
      ensures Contents() == Taken(old(Contents()))
      ensures old(appending) == None ==> Owed(Contents()) == old(Owed(Contents()))
      ensures match found
              case Work(id) => old(waiting) != [] && id == old(waiting)[0]
              case Closed => waiting == [] && closed
              case Nothing => waiting == [] && !closed
    {
      if waiting != [] {
        var id := waiting[0];
        waiting, appending := waiting[1..], Some(id);
        return Work(id);
      }
      if closed {
        return Closed;
      }
      return Nothing;
    }

    /** False exactly when a drain took the decision back in the meantime. */
    method Settle(id: Id) returns (mine: bool)
      modifies this
      ensures mine <==> old(appending) == Some(id)
      ensures Contents() == Settled(old(Contents()), id)
      ensures mine ==> [id] + Owed(Contents()) == old(Owed(Contents()))
      ensures !mine ==> Owed(Contents()) == old(Owed(Contents()))
    {
      if appending == Some(id) {
        appending := None;
        return true;
      }
      return false;
    }

    /** Takes back everything owed, oldest first. */
    method Abandon() returns (ids: seq<Id>)
      modifies this
      ensures ids == old(Owed(Contents()))
      ensures Contents() == Abandoned(old(Contents())) && Owed(Contents()) == []
    {
      ids := if appending.Some? then [appending.value] else [];
      appending := None;
      ids := ids + waiting;
      waiting := [];
    }

    method Close()
      modifies this
      ensures Contents() == old(Contents()).(closed := true)
    {
      closed := true;
    }
  }
}
