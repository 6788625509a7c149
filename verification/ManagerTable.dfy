/** A pool and all the managers made for it: what the manager's code does to them is what Managers says. */
module ManagerTable {
  import opened Managers
  import opened Wrappers
  import Code = ConnectionManager

  class Table {
    const pool: Code.Pool
    var managers: seq<Code.Manager?>
    var lost: seq<nat>
    var next: nat

    ghost predicate ManagerShows(s: State, m: nat)
      requires m < |managers| == |s.managers|
      reads this, managers
    {
      match s.managers[m]
      case Gone => managers[m] == null
      case Dying(releaser) =>
        && managers[m] != null && managers[m].connection == None
        && managers[m].releaser == if releaser.Some? then pool else null
      case Manager(ticket, releaser) =>
        && managers[m] != null && managers[m].connection == ticket
        && managers[m].releaser == if releaser.Some? then pool else null
    }

    /** The managers hold what the model's do, the pool got what was returned, a permit with each. */
    ghost predicate Shows(s: State)
      reads this, pool, managers
    {
      && (forall i, j | 0 <= i < j < |managers| && managers[i] != null :: managers[i] != managers[j])
      && |managers| == |s.managers| && (forall m | 0 <= m < |managers| :: ManagerShows(s, m))
      && pool.connections == s.returned && pool.capacity == |s.returned| && lost == s.lost && next == s.next
    }

    constructor ()
      ensures Shows(STARTED)
    {
      pool := new Code.Pool();
      managers, lost, next := [], [], 0;
    }

    method HandOut(ghost s: State)
      requires Shows(s) && CanStep(s, Wrap)
      modifies this`managers, this`next
      ensures Shows(Do(s, Wrap))
    {
      var x := new Code.Manager(next, pool);
      managers, next := managers + [x], next + 1;
      ghost var t := Do(s, Wrap);
      forall i | 0 <= i < |managers| ensures ManagerShows(t, i) { assert i < |s.managers| ==> old(ManagerShows(s, i)); }
    }

    method MoveOut(m: nat, ghost s: State)
      requires Shows(s) && CanStep(s, MoveTo(m))
      modifies this`managers, managers
      ensures Shows(Do(s, MoveTo(m)))
    {
      assert ManagerShows(s, m);
      var x := new Code.Manager.Move(managers[m]);
      managers := managers + [x];
      ghost var t := Do(s, MoveTo(m));
      forall i | 0 <= i < |managers| ensures ManagerShows(t, i) { assert i < |s.managers| ==> old(ManagerShows(s, i)); }
    }

    method AssignOver(m: nat, k: nat, ghost s: State)
      requires Shows(s) && CanStep(s, Assign(m, k))
      modifies this`lost, managers
      ensures Shows(Do(s, Assign(m, k)))
    {
      assert ManagerShows(s, m) && ManagerShows(s, k);
      var destroyed := managers[m].MoveAssign(managers[k]);
      if destroyed.Some? {
        lost := lost + [destroyed.value];
      }
      ghost var t := Do(s, Assign(m, k));
      forall i | 0 <= i < |managers| ensures ManagerShows(t, i) { assert old(ManagerShows(s, i)); }
    }

    /** The destructor's body: the connection goes where it is to go, the releaser stays. */
    method Release(m: nat, ghost s: State)
      requires Shows(s) && CanStep(s, Step.Release(m))
      modifies this`lost, managers, pool
      ensures Shows(Do(s, Step.Release(m)))
    {
      assert ManagerShows(s, m);
      var destroyed := managers[m].Release();
      if destroyed.Some? {
        lost := lost + [destroyed.value];
      }
      ghost var t := Do(s, Step.Release(m));
      forall i | 0 <= i < |managers| ensures ManagerShows(t, i) { assert old(ManagerShows(s, i)); }
    }

    /** The end of the manager and its releaser. */
    method End(m: nat, ghost s: State)
      requires Shows(s) && CanStep(s, Step.End(m))
      modifies this`managers
      ensures Shows(Do(s, Step.End(m)))
    {
      managers := managers[m := null];
      ghost var t := Do(s, Step.End(m));
      forall i | 0 <= i < |managers| ensures ManagerShows(t, i) { assert old(ManagerShows(s, i)); }
    }

    /** A manager's destruction, its releaser run before it is destroyed. */
    method Destroy(m: nat, ghost s: State)
      requires Shows(s) && CanStep(s, Step.Release(m)) && CanStep(Do(s, Step.Release(m)), Step.End(m))
      modifies this`managers, this`lost, managers, pool
      ensures Shows(Do(Do(s, Step.Release(m)), Step.End(m)))
    {
      Release(m, s);
      End(m, Do(s, Step.Release(m)));
    }
  }
}
