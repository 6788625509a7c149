/** The intrusive pointer's code, on objects that carry their count. */
module IntrusivePtr {

  class RefCounted {
    var count: int
    var deleted: bool

    constructor ()
      ensures count == 0 && !deleted
    {
      count, deleted := 0, false;
    }

    /** Takes one off and tells whether it was the last. */
    method Release() returns (last: bool)
      modifies this`count
      ensures count == old(count) - 1 && last == (old(count) == 1)
    {
      count := count - 1;
      last := count == 0;
    }
  }

  class Pointer {
    var target: RefCounted?

    constructor (instance: RefCounted?)
      modifies if instance != null then {instance} else {}
      ensures target == instance
      ensures instance != null ==>
        instance.count == old(instance.count) + 1 && instance.deleted == old(instance.deleted)
    {
      target := instance;
      new;
      if target != null {
        target.count := target.count + 1;
      }
    }

    constructor Move(other: Pointer)
      modifies other
      ensures target == old(other.target) && other.target == null
    {
      target := other.target;
      new;
      other.target := null;
    }

    /** Drops the pointer; the one that takes the count from one to zero deletes the object. */
    method DecrementRef()
      modifies this, if target != null then {target} else {}
      ensures target == null
      ensures old(target) != null ==> old(target).count == old(target.count) - 1
      ensures old(target) != null ==> old(target).deleted == (old(target.deleted) || old(target.count) == 1)
    {
      if target != null {
        var last := target.Release();
        if last {
          target.deleted := true;
        }
      }
      target := null;
    }

    /** Copy assignment: the new target gains before the old one loses, so assigning between two
        pointers to one object never deletes it; assigning to itself changes nothing. */
    method AssignCopy(other: Pointer)
      modifies this, if target != null then {target} else {}, if other.target != null then {other.target} else {}
      ensures target == old(other.target) && (other != this ==> other.target == old(other.target))
      ensures old(target) != null && old(target) == old(other.target) ==>
        target.count == old(target.count)
        && target.deleted == (old(target.deleted) || (other != this && old(target.count) == 0))
      ensures old(target) != old(other.target) && target != null ==>
        target.count == old(other.target.count) + 1 && target.deleted == old(other.target.deleted)
      ensures old(target) != old(other.target) && old(target) != null ==>
        && old(target).count == old(target.count) - 1
        && old(target).deleted == (old(target.deleted) || old(target.count) == 1)
    {
      if this == other {
        return;
      }
      var next := other.target;
      if next != null {
        next.count := next.count + 1;
      }
      DecrementRef();
      target := next;
    }

    /** Move assignment: the old target loses one, the source's is taken over. */
    method AssignMove(other: Pointer)
      modifies this, other, if target != null then {target} else {}
      ensures other == this ==>
        target == old(target)
        && (target != null ==> target.count == old(target.count) && target.deleted == old(target.deleted))
      ensures other != this ==> target == old(other.target) && other.target == null
      ensures other != this && old(target) != null ==>
        && old(target).count == old(target.count) - 1
        && old(target).deleted == (old(target.deleted) || old(target.count) == 1)
    {
      if this == other {
        return;
      }
      DecrementRef();
      target := other.target;
      other.target := null;
    }

    method Reset(next: RefCounted?)
      modifies this, if target != null then {target} else {}, if next != null then {next} else {}
      ensures target == next
      ensures next != null && next == old(target) ==>
        next.count == old(next.count) && next.deleted == (old(next.deleted) || old(next.count) == 0)
      ensures next != null && next != old(target) ==>
        next.count == old(next.count) + 1 && next.deleted == old(next.deleted)
      ensures old(target) != null && next != old(target) ==>
        && old(target).count == old(target.count) - 1
        && old(target).deleted == (old(target.deleted) || old(target.count) == 1)
    {
      if next != null {
        next.count := next.count + 1;
      }
      DecrementRef();
      target := next;
    }
  }
}
