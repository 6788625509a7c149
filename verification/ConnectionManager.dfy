/** The manager's code: a connection and the releaser that returns it to its pool. */
module ConnectionManager {
  import opened Wrappers

  /** What a releaser does to the pool it captured: push the connection, release a permit. */
  class Pool {
    var connections: seq<nat>
    var capacity: nat

    constructor ()
      ensures connections == [] && capacity == 0
    {
      connections, capacity := [], 0;
    }

    method TakeBack(c: nat)
      modifies this
      ensures connections == old(connections) + [c] && capacity == old(capacity) + 1
    {
      connections := connections + [c];
      capacity := capacity + 1;
    }
  }

  class Manager {
    var connection: Option<nat>
    var releaser: Pool?

    constructor (c: nat, pool: Pool?)
      ensures connection == Some(c) && releaser == pool
    {
      connection, releaser := Some(c), pool;
    }

    /** The source keeps neither the connection nor the releaser. */
    constructor Move(other: Manager)
      modifies other
      ensures connection == old(other.connection) && releaser == old(other.releaser)
      ensures other.connection == None && other.releaser == null
    {
      connection, releaser := other.connection, other.releaser;
      new;
      other.connection := None;
      other.releaser := null;
    }

    /** Assigning over a manager that has a connection destroys that connection; no pool gets it.
        Self-assignment changes nothing. */
    method MoveAssign(other: Manager) returns (destroyed: Option<nat>)
      modifies this, other
      ensures other == this ==>
        connection == old(connection) && releaser == old(releaser) && destroyed == None
      ensures other != this ==>
        && connection == old(other.connection) && releaser == old(other.releaser)
        && other.connection == None && other.releaser == null && destroyed == old(connection)
    {
      destroyed := None;
      if this == other {
        return;
      }
      destroyed := connection;
      connection := other.connection;
      other.connection := None;
      releaser := other.releaser;
      other.releaser := null;
    }

    /** The destructor: the releaser gets the connection if there are both, else it is destroyed. */
    method Release() returns (destroyed: Option<nat>)
      modifies this`connection, if releaser != null then {releaser} else {}
      ensures connection == None
      ensures old(connection).Some? && releaser != null ==>
        && releaser.connections == old(releaser.connections) + [old(connection).value]
        && releaser.capacity == old(releaser.capacity) + 1 && destroyed == None
      ensures !(old(connection).Some? && releaser != null) ==>
        && destroyed == old(connection)
        && (releaser != null ==>
            releaser.connections == old(releaser.connections) && releaser.capacity == old(releaser.capacity))
    {
      destroyed := None;
      if connection.Some? && releaser != null {
        releaser.TakeBack(connection.value);
      } else {
        destroyed := connection;
      }
      connection := None;
    }
  }

  /** A connection moved along any chain of managers is returned once, by the last of them: the
      earlier ones release nothing. */
  method MoveChain(pool: Pool, c: nat, length: nat) returns (last: Manager)
    modifies pool
    ensures pool.connections == old(pool.connections) && pool.capacity == old(pool.capacity)
    ensures last.connection == Some(c) && last.releaser == pool && fresh(last)
  {
    last := new Manager(c, pool);
    for k := 0 to length
      invariant last.connection == Some(c) && last.releaser == pool && fresh(last)
      invariant pool.connections == old(pool.connections) && pool.capacity == old(pool.capacity)
    {
      var next := new Manager.Move(last);
      var destroyed := last.Release();
      assert destroyed == None;
      last := next;
    }
  }
}
