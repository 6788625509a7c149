/** All objects and pointers of a program: what the pointer's code does to them is what RefCounts says. */
module PointerArena {
  import opened IntrusivePtr
  import opened RefCounts

  class Arena {
    var objects: seq<RefCounted>
    var pointers: seq<Pointer?>

    /** No object or pointer is listed twice. */
    ghost predicate Apart()
      reads this
    {
      && (forall i, j | 0 <= i < j < |objects| :: objects[i] != objects[j])
      && (forall i, j | 0 <= i < j < |pointers| && pointers[i] != null :: pointers[i] != pointers[j])
    }

    ghost predicate ObjectShows(h: Heap, o: nat)
      requires o < |objects| == |h.counts| == |h.deleted|
      reads this, objects
    {
      objects[o].count == h.counts[o] && objects[o].deleted == h.deleted[o]
    }

    ghost predicate PointerShows(h: Heap, p: nat)
      requires p < |pointers| == |h.cells|
      reads this, pointers
    {
      match h.cells[p]
      case Destroyed => pointers[p] == null
      case Holds(Null) => pointers[p] != null && pointers[p].target == null
      case Holds(To(o)) => pointers[p] != null && o < |objects| && pointers[p].target == objects[o]
    }

    /** The objects' counts and the pointers' targets are those of a heap of the model. */
    ghost predicate Shows(h: Heap)
      reads this, objects, pointers
    {
      && Apart()
      && |objects| == |h.counts| == |h.deleted| && (forall o | 0 <= o < |objects| :: ObjectShows(h, o))
      && |pointers| == |h.cells| && (forall p | 0 <= p < |pointers| :: PointerShows(h, p))
    }

    constructor ()
      ensures Shows(EMPTY)
    {
      objects, pointers := [], [];
    }

    method New(ghost h: Heap)
      requires Shows(h) && Enabled(h, Op.New)
      modifies this`objects
      ensures Shows(Apply(h, Op.New))
    {
      var o := new RefCounted();
      objects := objects + [o];
      ghost var k := Apply(h, Op.New);
      forall i | 0 <= i < |objects| ensures ObjectShows(k, i) { assert i < |h.counts| ==> old(ObjectShows(h, i)); }
      forall i | 0 <= i < |pointers| ensures PointerShows(k, i) { assert old(PointerShows(h, i)); }
    }

    /** A new pointer to an object of the list, or null. */
    method Make(t: Target, ghost h: Heap)
      requires Shows(h) && Enabled(h, if t.To? then MakeFrom(t.obj) else MakeNull)
      modifies this`pointers, objects
      ensures Shows(Apply(h, if t.To? then MakeFrom(t.obj) else MakeNull)) && objects == old(objects)
    {
      var x := new Pointer(if t.To? then objects[t.obj] else null);
      pointers := pointers + [x];
      ghost var k := Apply(h, if t.To? then MakeFrom(t.obj) else MakeNull);
      forall o | 0 <= o < |objects| ensures ObjectShows(k, o) { assert old(ObjectShows(h, o)); }
      forall i | 0 <= i < |pointers| ensures PointerShows(k, i) { assert i < |h.cells| ==> old(PointerShows(h, i)); }
    }

    method Copy(q: nat, ghost h: Heap)
      requires Shows(h) && Enabled(h, MakeCopy(q))
      modifies this`pointers, objects
      ensures Shows(Apply(h, MakeCopy(q))) && objects == old(objects)
    {
      assert PointerShows(h, q);
      var x := new Pointer(pointers[q].target);
      pointers := pointers + [x];
      ghost var k := Apply(h, MakeCopy(q));
      forall o | 0 <= o < |objects| ensures ObjectShows(k, o) { assert old(ObjectShows(h, o)); }
      forall i | 0 <= i < |pointers| ensures PointerShows(k, i) { assert i < |h.cells| ==> old(PointerShows(h, i)); }
    }

    method Move(q: nat, ghost h: Heap)
      requires Shows(h) && Enabled(h, MakeMove(q))
      modifies this`pointers, pointers
      ensures Shows(Apply(h, MakeMove(q))) && objects == old(objects)
    {
      assert PointerShows(h, q);
      var x := new Pointer.Move(pointers[q]);
      pointers := pointers + [x];
      ghost var k := Apply(h, MakeMove(q));
      forall o | 0 <= o < |objects| ensures ObjectShows(k, o) { assert old(ObjectShows(h, o)); }
      forall i | 0 <= i < |pointers| ensures PointerShows(k, i) { assert i < |h.cells| ==> old(PointerShows(h, i)); }
    }

    method AssignCopy(p: nat, q: nat, ghost h: Heap)
      requires Shows(h) && Enabled(h, Op.AssignCopy(p, q))
      modifies objects, pointers
      ensures Shows(Apply(h, Op.AssignCopy(p, q)))
    {
      assert PointerShows(h, p) && PointerShows(h, q);
      pointers[p].AssignCopy(pointers[q]);
      ghost var k := Apply(h, Op.AssignCopy(p, q));
      forall o | 0 <= o < |objects| ensures ObjectShows(k, o) { assert old(ObjectShows(h, o)); }
      forall i | 0 <= i < |pointers| ensures PointerShows(k, i) { assert old(PointerShows(h, i)); }
    }

    method AssignMove(p: nat, q: nat, ghost h: Heap)
      requires Shows(h) && Enabled(h, Op.AssignMove(p, q))
      modifies objects, pointers
      ensures Shows(Apply(h, Op.AssignMove(p, q)))
    {
      assert PointerShows(h, p) && PointerShows(h, q);
      pointers[p].AssignMove(pointers[q]);
      ghost var k := Apply(h, Op.AssignMove(p, q));
      forall o | 0 <= o < |objects| ensures ObjectShows(k, o) { assert old(ObjectShows(h, o)); }
      forall i | 0 <= i < |pointers| ensures PointerShows(k, i) { assert old(PointerShows(h, i)); }
    }

    method Reset(p: nat, t: Target, ghost h: Heap)
      requires Shows(h) && Enabled(h, Op.Reset(p, t))
      modifies objects, pointers
      ensures Shows(Apply(h, Op.Reset(p, t)))
    {
      assert PointerShows(h, p);
      pointers[p].Reset(if t.To? then objects[t.obj] else null);
      ghost var k := Apply(h, Op.Reset(p, t));
      forall o | 0 <= o < |objects| ensures ObjectShows(k, o) { assert old(ObjectShows(h, o)); }
      forall i | 0 <= i < |pointers| ensures PointerShows(k, i) { assert old(PointerShows(h, i)); }
    }

    method Destroy(p: nat, ghost h: Heap)
      requires Shows(h) && Enabled(h, Op.Destroy(p))
      modifies this`pointers, objects, pointers
      ensures Shows(Apply(h, Op.Destroy(p))) && objects == old(objects)
    {
      assert PointerShows(h, p);
      pointers[p].DecrementRef();
      pointers := pointers[p := null];
      ghost var k := Apply(h, Op.Destroy(p));
      forall o | 0 <= o < |objects| ensures ObjectShows(k, o) { assert old(ObjectShows(h, o)); }
      forall i | 0 <= i < |pointers| ensures PointerShows(k, i) { assert old(PointerShows(h, i)); }
    }
  }
}
